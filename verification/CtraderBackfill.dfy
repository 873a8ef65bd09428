/**
 * Rebuilding cTrader positions from deal history, and the agreement between the deals fed one by one to
 * the live writer and the batch written by the backfill. Broker money is whole cents.
 */
module CtraderBackfill {
  import opened Common
  import opened Metrics
  import opened TradeWriters
  import Grouping
  import SerialChains

  datatype CloseCents = CloseCents(gross: int, commission: int, swap: int)

  datatype Deal = Deal(
    symbolId: int, volume: int, filledVolume: int, buy: bool, executed: int, created: int, close: Option<CloseCents>)

  datatype Account = Account(nominal: real, symbolName: int -> string)

  const VOLUME_PER_LOT: real := 10000.0

  function ToDate(timestamp: int, now: int): int {
    if timestamp > 0 then timestamp else now
  }

  function Closing(deals: seq<Deal>): seq<Deal> {
    if deals == [] then []
    else (if deals[0].close.Some? then [deals[0]] else []) + Closing(deals[1..])
  }

  function FirstOpen(deals: seq<Deal>): Option<Deal> {
    if deals == [] then None else if deals[0].close.None? then Some(deals[0]) else FirstOpen(deals[1..])
  }

  function Total(deals: seq<Deal>): CloseCents {
    if deals == [] then CloseCents(0, 0, 0)
    else
      var t := Total(deals[1..]);
      if deals[0].close.Some? then Add(t, deals[0].close.value) else t
  }

  function FilledVolume(deals: seq<Deal>): int {
    if deals == [] then 0 else deals[0].filledVolume + FilledVolume(deals[1..])
  }

  function LastExecution(deals: seq<Deal>): int {
    if deals == [] then 0
    else
      var m := LastExecution(deals[1..]);
      if deals[0].executed > m then deals[0].executed else m
  }

  function Side(buy: bool): string {
    if buy then "BUY" else "SELL"
  }

  /** A position absent from the open set is fully closed: absolute realized values. */
  function ReconstructClosed(a: Account, deals: seq<Deal>, now: int): BackfillPosition {
    var closing := Closing(deals);
    var open := FirstOpen(deals);
    var direction :=
      if open.Some? then Side(open.value.buy) else if closing != [] then Side(!closing[0].buy) else "BUY";
    var symbolId := if open.Some? then open.value.symbolId else if closing != [] then closing[0].symbolId else 0;
    var volume := if open.Some? then open.value.volume else FilledVolume(closing);
    var entered :=
      if open.Some? then (if open.value.executed != 0 then open.value.executed else open.value.created)
      else if closing != [] then closing[0].created else 0;
    var total := Total(closing);
    var entry := Entry(a.symbolName(symbolId), direction, volume as real / VOLUME_PER_LOT, ToDate(entered, now));
    BackfillPosition(entry, true,
      Some(ToDate(LastExecution(closing), now)), Cents(total.gross), Cents(total.commission), Cents(total.swap))
  }

  /** The closing deal as the live execution event carries it. */
  function LiveFill(d: Deal, entry: Entry, fullyClosed: bool, now: int): CloseFill
    requires d.close.Some?
  {
    CloseFill(entry, ToDate(d.executed, now), RoundMoney(Cents(d.close.value.gross)),
      RoundMoney(Cents(d.close.value.commission)), RoundMoney(Cents(d.close.value.swap)), fullyClosed)
  }

  /** Closing deals fed one by one. */
  function Feed(nominal: real, row: Option<Row>, fills: seq<CloseFill>): Option<Row>
    decreases |fills|
  {
    if fills == [] then row
    else
      var n := |fills| - 1;
      Some(ApplyClose(Feed(nominal, row, fills[..n]), nominal, fills[n]))
  }

  /** No row yet, or an open row that has booked nothing. */
  predicate Unbooked(row: Option<Row>) {
    row.None? || (row.value.grossProfit.None? && row.value.commission.None? && row.value.swap.None?)
  }

  predicate BookedMoney(r: Row, t: CloseCents) {
    && r.grossProfit == Some(Cents(t.gross)) && r.profit == Some(Cents(t.gross))
    && r.commission == Some(Cents(t.commission)) && r.swap == Some(Cents(t.swap))
    && r.pnl == Some(Cents(t.gross + t.commission + t.swap))
  }

  predicate BookedRatios(r: Row, start: Option<Row>, e: Entry, nominal: real, gross: real) {
    var pct := ProfitPercentage(gross, nominal);
    && r.profitPercentage == Keep(pct, Base(start, e).profitPercentage)
    && r.rr == Keep(TradeRr(gross, pct, nominal, RiskOf(start)), Base(start, e).rr)
    && r.risk == Some(RiskOf(start))
  }

  /** The money columns a position with these totals must have, given the row it started from. */
  predicate Booked(r: Row, start: Option<Row>, e: Entry, nominal: real, t: CloseCents) {
    BookedMoney(r, t) && BookedRatios(r, start, e, nominal, Cents(t.gross))
  }

  predicate FillsOf(deals: seq<Deal>, fills: seq<CloseFill>) {
    && |fills| == |deals|
    && forall i :: 0 <= i < |deals| ==>
         && deals[i].close.Some?
         && fills[i].gross == Cents(deals[i].close.value.gross)
         && fills[i].commission == Cents(deals[i].close.value.commission)
         && fills[i].swap == Cents(deals[i].close.value.swap)
  }

  lemma AddCents(booked: Option<real>, before: int, more: int)
    requires OrElse(booked, 0.0) == Cents(before)
    ensures RoundMoney(OrElse(booked, 0.0) + Cents(more)) == Cents(before + more)
  {
    CentsAdd(before, more);
    RoundCents(before + more);
  }

  lemma PnlCents(t: CloseCents)
    ensures RoundMoney(Cents(t.gross) + Cents(t.commission) + Cents(t.swap)) == Cents(t.gross + t.commission + t.swap)
  {
    CentsAdd(t.gross, t.commission);
    CentsAdd(t.gross + t.commission, t.swap);
    RoundCents(t.gross + t.commission + t.swap);
  }

  function Add(t: CloseCents, c: CloseCents): CloseCents {
    CloseCents(t.gross + c.gross, t.commission + c.commission, t.swap + c.swap)
  }

  predicate Carries(fill: CloseFill, c: CloseCents) {
    fill.gross == Cents(c.gross) && fill.commission == Cents(c.commission) && fill.swap == Cents(c.swap)
  }

  lemma AddMoney(row: Option<Row>, nominal: real, t: CloseCents, c: CloseCents, fill: CloseFill)
    requires if row.Some? && row.value.grossProfit.Some? then BookedMoney(row.value, t)
             else Unbooked(row) && t == CloseCents(0, 0, 0)
    requires Carries(fill, c)
    ensures BookedMoney(ApplyClose(row, nominal, fill), Add(t, c))
  {
    var before := Base(row, fill.entry);
    assert Cents(0) == 0.0;
    AddCents(before.grossProfit, t.gross, c.gross);
    AddCents(before.commission, t.commission, c.commission);
    AddCents(before.swap, t.swap, c.swap);
    PnlCents(Add(t, c));
  }

  lemma KeepRatios(row: Option<Row>, start: Option<Row>, e: Entry, nominal: real, booked: real, fill: CloseFill)
    requires row == start || (row.Some? && BookedRatios(row.value, start, e, nominal, booked))
    ensures var r := ApplyClose(row, nominal, fill);
      r.grossProfit.Some? && BookedRatios(r, start, e, nominal, r.grossProfit.value)
  {
  }

  /** One more closing deal on top of totals already in the row. */
  lemma BookOne(row: Option<Row>, start: Option<Row>, e: Entry, nominal: real, t: CloseCents, c: CloseCents,
      fill: CloseFill)
    requires (row == start && Unbooked(start) && t == CloseCents(0, 0, 0))
        || (row.Some? && Booked(row.value, start, e, nominal, t))
    requires Carries(fill, c)
    ensures Booked(ApplyClose(row, nominal, fill), start, e, nominal, Add(t, c))
  {
    AddMoney(row, nominal, t, c, fill);
    KeepRatios(row, start, e, nominal, Cents(t.gross), fill);
  }

  /** After any number of closing deals the row has booked exactly their sum. */
  lemma {:induction false} FeedBooks(nominal: real, start: Option<Row>, deals: seq<Deal>, fills: seq<CloseFill>,
      e: Entry)
    requires Unbooked(start) && FillsOf(deals, fills) && deals != []
    ensures Feed(nominal, start, fills).Some?
    ensures Booked(Feed(nominal, start, fills).value, start, e, nominal, Total(deals))
    decreases |deals|
  {
    var n := |deals| - 1;
    if n > 0 { FeedBooks(nominal, start, deals[..n], fills[..n], e); }
    BookNext(Feed(nominal, start, fills[..n]), start, e, nominal, deals[..n], deals[n], fills[n]);
    assert deals[..n] + [deals[n]] == deals;
  }

  lemma BookNext(row: Option<Row>, start: Option<Row>, e: Entry, nominal: real, before: seq<Deal>, d: Deal,
      fill: CloseFill)
    requires if before == [] then row == start && Unbooked(start)
             else row.Some? && Booked(row.value, start, e, nominal, Total(before))
    requires d.close.Some? && Carries(fill, d.close.value)
    ensures Booked(ApplyClose(row, nominal, fill), start, e, nominal, Total(before + [d]))
  {
    TotalSnoc(before, d);
    BookOne(row, start, e, nominal, Total(before), d.close.value, fill);
  }

  lemma WrittenMoney(nominal: real, row: Option<Row>, p: BackfillPosition, t: CloseCents)
    requires p.fullyClosed
    requires p.gross == Cents(t.gross) && p.commission == Cents(t.commission) && p.swap == Cents(t.swap)
    ensures BookedMoney(WriteBackfill(row, nominal, p), t)
  {
    RoundCents(t.gross);
    RoundCents(t.commission);
    RoundCents(t.swap);
    PnlCents(t);
  }

  lemma BatchMoney(a: Account, row: Option<Row>, deals: seq<Deal>, now: int)
    ensures BookedMoney(WriteBackfill(row, a.nominal, ReconstructClosed(a, deals, now)), Total(Closing(deals)))
  {
    WrittenMoney(a.nominal, row, ReconstructClosed(a, deals, now), Total(Closing(deals)));
  }

  lemma BatchRatios(row: Option<Row>, nominal: real, p: BackfillPosition)
    requires p.fullyClosed
    ensures BookedRatios(WriteBackfill(row, nominal, p), row, p.entry, nominal, RoundMoney(p.gross))
  {
  }

  /** The batch write books the same totals. */
  lemma BatchBooks(a: Account, row: Option<Row>, deals: seq<Deal>, now: int)
    ensures Booked(WriteBackfill(row, a.nominal, ReconstructClosed(a, deals, now)), row,
                   ReconstructClosed(a, deals, now).entry, a.nominal, Total(Closing(deals)))
  {
    BatchMoney(a, row, deals, now);
    BatchRatios(row, a.nominal, ReconstructClosed(a, deals, now));
    RoundCents(Total(Closing(deals)).gross);
  }

  predicate SameMoney(x: Row, y: Row) {
    && x.profit == y.profit && x.grossProfit == y.grossProfit && x.commission == y.commission && x.swap == y.swap
    && x.pnl == y.pnl && x.profitPercentage == y.profitPercentage && x.rr == y.rr && x.risk == y.risk
  }

  /** The latest execution, which no deal exceeds and, unless it is 0, some deal has. */
  lemma {:induction false} LastExecutionIsMax(deals: seq<Deal>)
    ensures LastExecution(deals) >= 0 && forall d :: d in deals ==> d.executed <= LastExecution(deals)
    ensures LastExecution(deals) == 0 || exists d :: d in deals && d.executed == LastExecution(deals)
    decreases |deals|
  {
    if deals != [] {
      LastExecutionIsMax(deals[1..]);
      assert deals == [deals[0]] + deals[1..];
    }
  }

  /** The exit date and the result the batch write leaves. */
  lemma BatchCloses(a: Account, row: Option<Row>, deals: seq<Deal>, now: int)
    ensures var r := WriteBackfill(row, a.nominal, ReconstructClosed(a, deals, now));
      && r.exitDate == Some(ToDate(LastExecution(Closing(deals)), now))
      && r.pnl.Some? && r.result == Some(GetTradeResult(r.pnl.value, a.nominal))
  {
  }

  /** The last closing deal, when full, leaves its own date and the result of the summed pnl. */
  lemma FeedCloses(nominal: real, start: Option<Row>, fills: seq<CloseFill>)
    requires fills != [] && fills[|fills| - 1].fullyClosed
    ensures Feed(nominal, start, fills).Some?
    ensures var r := Feed(nominal, start, fills).value;
      && r.exitDate == Some(fills[|fills| - 1].exitDate)
      && r.pnl.Some? && r.result == Some(GetTradeResult(r.pnl.value, nominal))
  {
  }

  lemma BookedAlike(x: Row, y: Row, start: Option<Row>, e: Entry, nominal: real, t: CloseCents)
    requires Booked(x, start, e, nominal, t) && Booked(y, start, e, nominal, t)
    ensures SameMoney(x, y)
  {
  }

  // ---- any order of delivery ----

  /** The events that deliver these closing deals, handled at the times `at`. */
  predicate Delivers(deals: seq<Deal>, fills: seq<CloseFill>, at: seq<int>) {
    && |fills| == |deals| == |at|
    && forall i :: 0 <= i < |deals| ==>
         deals[i].close.Some? && fills[i] == LiveFill(deals[i], fills[i].entry, fills[i].fullyClosed, at[i])
  }

  lemma DeliveredFills(deals: seq<Deal>, fills: seq<CloseFill>, at: seq<int>)
    requires Delivers(deals, fills, at)
    ensures FillsOf(deals, fills)
  {
    forall i | 0 <= i < |deals|
      ensures fills[i].gross == Cents(deals[i].close.value.gross)
      ensures fills[i].commission == Cents(deals[i].close.value.commission)
      ensures fills[i].swap == Cents(deals[i].close.value.swap)
    {
      RoundCents(deals[i].close.value.gross);
      RoundCents(deals[i].close.value.commission);
      RoundCents(deals[i].close.value.swap);
    }
  }

  lemma {:induction false} TotalSnoc(deals: seq<Deal>, d: Deal)
    ensures Total(deals + [d]) == if d.close.Some? then Add(Total(deals), d.close.value) else Total(deals)
    decreases |deals|
  {
    if deals == [] {
      assert [] + [d] == [d];
    } else {
      assert (deals + [d])[1..] == deals[1..] + [d];
      TotalSnoc(deals[1..], d);
    }
  }

  /** Taking one deal out of the middle. */
  lemma {:induction false} TotalWithout(before: seq<Deal>, d: Deal, after: seq<Deal>)
    ensures Total(before + [d] + after) ==
        if d.close.Some? then Add(Total(before + after), d.close.value) else Total(before + after)
    decreases |before|
  {
    if before == [] {
      assert [] + [d] + after == [d] + after && [] + after == after && ([d] + after)[1..] == after;
    } else {
      assert (before + [d] + after)[1..] == before[1..] + [d] + after;
      assert (before + after)[1..] == before[1..] + after;
      TotalWithout(before[1..], d, after);
    }
  }

  /** The totals do not depend on the order of the deals. */
  lemma {:induction false} TotalPermuted(xs: seq<Deal>, ys: seq<Deal>)
    requires multiset(xs) == multiset(ys)
    ensures Total(xs) == Total(ys)
    decreases |xs|
  {
    if xs == [] {
      EmptyBag(ys);
    } else {
      var n := |xs| - 1;
      var d := xs[n];
      assert xs == xs[..n] + [d];
      assert d in multiset(xs) && d in ys;
      var j :| 0 <= j < |ys| && ys[j] == d;
      var before, after := ys[..j], ys[j + 1..];
      assert ys == before + [d] + after;
      SameRest(xs[..n], before, d, after);
      TotalPermuted(xs[..n], before + after);
      TotalSnoc(xs[..n], d);
      TotalWithout(before, d, after);
    }
  }

  lemma SameRest(xs: seq<Deal>, before: seq<Deal>, d: Deal, after: seq<Deal>)
    requires multiset(xs + [d]) == multiset(before + [d] + after)
    ensures multiset(xs) == multiset(before + after)
  {
    var x, y := multiset(xs), multiset(before + after);
    assert multiset(xs + [d]) == x + multiset{d};
    assert multiset(before + [d] + after) == y + multiset{d};
    forall e ensures x[e] == y[e] { assert (x + multiset{d})[e] == (y + multiset{d})[e]; }
  }

  lemma EmptyBag(ys: seq<Deal>)
    requires |multiset(ys)| == 0
    ensures ys == []
  {
    assert |multiset(ys)| == |ys|;
  }

  /**
   * Delivering a position's closing deals one by one, in any order, the last event closing it for good, leaves
   * the row the backfill would write from the same deals: the same money, result and R.
   */
  lemma IncrementalEqualsBatch(a: Account, start: Option<Row>, deals: seq<Deal>, order: seq<Deal>,
      fills: seq<CloseFill>, at: seq<int>, now: int)
    requires Unbooked(start) && multiset(order) == multiset(Closing(deals))
    requires Delivers(order, fills, at) && fills != [] && fills[|fills| - 1].fullyClosed
    ensures Feed(a.nominal, start, fills).Some?
    ensures var p := ReconstructClosed(a, deals, now);
      var inc, batch := Feed(a.nominal, start, fills).value, WriteBackfill(start, a.nominal, p);
      SameMoney(inc, batch) && inc.result == batch.result && inc.exitDate.Some? && batch.exitDate.Some?
  {
    var e := ReconstructClosed(a, deals, now).entry;
    var batch := WriteBackfill(start, a.nominal, ReconstructClosed(a, deals, now));
    DeliveredFills(order, fills, at);
    TotalPermuted(order, Closing(deals));
    FeedBooks(a.nominal, start, order, fills, e);
    BatchBooks(a, start, deals, now);
    FeedCloses(a.nominal, start, fills);
    BatchCloses(a, start, deals, now);
    BookedAlike(Feed(a.nominal, start, fills).value, batch, start, e, a.nominal, Total(Closing(deals)));
  }

  /** The batch date and that of the deal delivered last; a deal without a time is dated when it is handled. */
  lemma DatesAgree(closing: seq<Deal>, last: Deal, at: int, now: int)
    requires last in closing
    ensures ToDate(last.executed, at) == ToDate(LastExecution(closing), now) <==>
              if last.executed > 0 then forall d :: d in closing ==> d.executed <= last.executed
              else at == ToDate(LastExecution(closing), now)
  {
    LastExecutionIsMax(closing);
  }

  /** And the same exit date exactly when no deal was executed after the one delivered last. */
  lemma SameExitDate(a: Account, start: Option<Row>, deals: seq<Deal>, order: seq<Deal>, fills: seq<CloseFill>,
      at: seq<int>, now: int)
    requires multiset(order) == multiset(Closing(deals))
    requires Delivers(order, fills, at) && fills != [] && fills[|fills| - 1].fullyClosed
    ensures Feed(a.nominal, start, fills).Some?
    ensures var n := |fills| - 1;
      var last, batch := order[n], WriteBackfill(start, a.nominal, ReconstructClosed(a, deals, now));
      Feed(a.nominal, start, fills).value.exitDate == batch.exitDate <==>
        if last.executed > 0 then forall d :: d in Closing(deals) ==> d.executed <= last.executed
        else at[n] == ToDate(LastExecution(Closing(deals)), now)
  {
    var n := |fills| - 1;
    assert order[n] in multiset(order);
    FeedCloses(a.nominal, start, fills);
    BatchCloses(a, start, deals, now);
    DatesAgree(Closing(deals), order[n], at[n], now);
  }

  function StoredPercentage(row: Option<Row>): Option<real> {
    if row.Some? then row.value.profitPercentage else None
  }

  function StoredRr(row: Option<Row>): Option<real> {
    if row.Some? then row.value.rr else None
  }

  predicate SameAmounts(x: Row, y: Row) {
    && x.profit == y.profit && x.grossProfit == y.grossProfit && x.commission == y.commission && x.swap == y.swap
    && x.pnl == y.pnl && x.result == y.result && x.exitDate == y.exitDate
  }

  /**
   * A backfill is idempotent, and sets every amount, the result and the exit date whatever row it finds. What
   * that row contributes is its risk, and the percentage and the R-multiple where they cannot be computed.
   */
  lemma BackfillForgets(a: Account, x: Option<Row>, y: Option<Row>, deals: seq<Deal>, now: int)
    ensures var p := ReconstructClosed(a, deals, now); var r := WriteBackfill(x, a.nominal, p);
      WriteBackfill(Some(r), a.nominal, p) == r
    ensures var p := ReconstructClosed(a, deals, now);
      var u, v := WriteBackfill(x, a.nominal, p), WriteBackfill(y, a.nominal, p);
      && SameAmounts(u, v) && (u.risk == v.risk <==> RiskOf(x) == RiskOf(y))
      && (u.profitPercentage == v.profitPercentage <==> a.nominal > 0.0 || StoredPercentage(x) == StoredPercentage(y))
      && (RiskOf(x) == RiskOf(y) ==>
            (u.rr == v.rr <==> (a.nominal > 0.0 && RiskOf(x) > 0.0) || StoredRr(x) == StoredRr(y)))
  {
    var p := ReconstructClosed(a, deals, now);
    RrComputable(RoundMoney(p.gross), a.nominal, RiskOf(x));
  }

  /** Two rows a backfill cannot tell apart. */
  predicate Alike(nominal: real, x: Option<Row>, y: Option<Row>) {
    && RiskOf(x) == RiskOf(y)
    && (nominal > 0.0 || StoredPercentage(x) == StoredPercentage(y))
    && ((nominal > 0.0 && RiskOf(x) > 0.0) || StoredRr(x) == StoredRr(y))
  }

  /** A cTrader write leaves a row alike: it keeps the risk, and what it cannot compute. */
  lemma WriteKeepsAlike(nominal: real, row: Option<Row>, op: Op)
    requires OpOf(None, op) && !op.SetRisk?
    ensures Alike(nominal, row, Apply(None, nominal, row, op))
  {
    match op
    case OpenOp(_) =>
    case DealOp(t) =>
      var gross := RoundMoney(OrElse(Base(row, t.entry).grossProfit, 0.0) + t.gross);
      RrComputable(gross, nominal, RiskOf(row));
    case BackfillOp(p) => RrComputable(RoundMoney(p.gross), nominal, RiskOf(row));
  }

  lemma {:induction false} WritesKeepAlike(nominal: real, row: Option<Row>, ops: seq<Op>)
    requires forall op :: op in ops ==> OpOf(None, op) && !op.SetRisk?
    ensures Alike(nominal, row, ApplyAll(None, nominal, row, ops))
    decreases |ops|
  {
    if ops != [] {
      assert ops[0] in ops;
      WriteKeepsAlike(nominal, row, ops[0]);
      WritesKeepAlike(nominal, Apply(None, nominal, row, ops[0]), ops[1..]);
    }
  }

  /** So a backfill of the same deals after any cTrader writes restores the money, result and R of one straight away. */
  lemma BackfillConverges(a: Account, row: Option<Row>, ops: seq<Op>, deals: seq<Deal>, now: int)
    requires forall op :: op in ops ==> OpOf(None, op) && !op.SetRisk?
    ensures var p := ReconstructClosed(a, deals, now);
      var after, straight :=
        WriteBackfill(ApplyAll(None, a.nominal, row, ops), a.nominal, p), WriteBackfill(row, a.nominal, p);
      SameMoney(after, straight) && after.result == straight.result && after.exitDate == straight.exitDate
  {
    WritesKeepAlike(a.nominal, row, ops);
    BackfillForgets(a, ApplyAll(None, a.nominal, row, ops), row, deals, now);
  }

  // ---- a window that cuts into a position ----

  const NOTHING: CloseCents := CloseCents(0, 0, 0)

  /** The deals executed from a time on. */
  function Since(deals: seq<Deal>, from: int): seq<Deal> {
    if deals == [] then [] else (if deals[0].executed >= from then [deals[0]] else []) + Since(deals[1..], from)
  }

  /** What a window from that time on hides of the position's realized money. */
  function Hidden(deals: seq<Deal>, from: int): CloseCents {
    if deals == [] then NOTHING
    else
      var t := Hidden(deals[1..], from);
      if deals[0].close.Some? && deals[0].executed < from then Add(t, deals[0].close.value) else t
  }

  /** And of its closed volume. */
  function HiddenVolume(deals: seq<Deal>, from: int): int {
    if deals == [] then 0
    else
      HiddenVolume(deals[1..], from)
      + if deals[0].close.Some? && deals[0].executed < from then deals[0].filledVolume else 0
  }

  /** One more deal at the front. */
  lemma SinceNext(d: Deal, rest: seq<Deal>, from: int)
    ensures Since([d] + rest, from) == if d.executed >= from then [d] + Since(rest, from) else Since(rest, from)
  {
    assert ([d] + rest)[1..] == rest;
    assert [] + Since(rest, from) == Since(rest, from);
  }

  lemma HiddenNext(d: Deal, rest: seq<Deal>, from: int)
    ensures Hidden([d] + rest, from) == if d.close.Some? && d.executed < from
                                        then Add(Hidden(rest, from), d.close.value) else Hidden(rest, from)
  {
    assert ([d] + rest)[1..] == rest;
  }

  lemma ClosingNext(d: Deal, rest: seq<Deal>)
    ensures Closing([d] + rest) == if d.close.Some? then [d] + Closing(rest) else Closing(rest)
    ensures Total([d] + rest) == if d.close.Some? then Add(Total(rest), d.close.value) else Total(rest)
    ensures FilledVolume([d] + rest) == d.filledVolume + FilledVolume(rest)
    ensures LastExecution([d] + rest) == if d.executed > LastExecution(rest) then d.executed else LastExecution(rest)
  {
    assert ([d] + rest)[1..] == rest;
    assert [] + Closing(rest) == Closing(rest);
  }

  lemma {:induction false} TotalOfClosing(deals: seq<Deal>)
    ensures Total(Closing(deals)) == Total(deals)
    decreases |deals|
  {
    if deals != [] {
      TotalOfClosing(deals[1..]);
      assert deals == [deals[0]] + deals[1..];
      ClosingNext(deals[0], deals[1..]);
      ClosingNext(deals[0], Closing(deals[1..]));
    }
  }

  lemma {:induction false} SplitTotal(deals: seq<Deal>, from: int)
    ensures Total(deals).gross == Total(Since(deals, from)).gross + Hidden(deals, from).gross
    ensures Total(deals).commission == Total(Since(deals, from)).commission + Hidden(deals, from).commission
    ensures Total(deals).swap == Total(Since(deals, from)).swap + Hidden(deals, from).swap
    decreases |deals|
  {
    if deals != [] {
      SplitTotal(deals[1..], from);
      assert deals == [deals[0]] + deals[1..];
      SinceNext(deals[0], deals[1..], from);
      ClosingNext(deals[0], Since(deals[1..], from));
    }
  }

  /** What the window shows and what it hides make up the whole. */
  lemma CutTotals(deals: seq<Deal>, from: int)
    ensures var whole, shown, hidden := Total(Closing(deals)), Total(Closing(Since(deals, from))), Hidden(deals, from);
      && whole.gross == shown.gross + hidden.gross && whole.commission == shown.commission + hidden.commission
      && whole.swap == shown.swap + hidden.swap
  {
    SplitTotal(deals, from);
    TotalOfClosing(deals);
    TotalOfClosing(Since(deals, from));
  }

  lemma {:induction false} CutVolumes(deals: seq<Deal>, from: int)
    ensures FilledVolume(Closing(deals)) == FilledVolume(Closing(Since(deals, from))) + HiddenVolume(deals, from)
    decreases |deals|
  {
    if deals != [] {
      var d, rest := deals[0], deals[1..];
      CutVolumes(rest, from);
      assert deals == [d] + rest;
      SinceNext(d, rest, from);
      ClosingNext(d, rest);
      ClosingNext(d, Since(rest, from));
      ClosingNext(d, Closing(rest));
      ClosingNext(d, Closing(Since(rest, from)));
    }
  }

  /** The latest closing deal is in the window if any is. */
  lemma {:induction false} LatestIsShown(deals: seq<Deal>, from: int)
    requires from > 0
    ensures if Closing(Since(deals, from)) == [] then LastExecution(Closing(deals)) < from
            else LastExecution(Closing(Since(deals, from))) == LastExecution(Closing(deals)) >= from
    decreases |deals|
  {
    if deals != [] {
      var d, rest := deals[0], deals[1..];
      LatestIsShown(rest, from);
      assert deals == [d] + rest;
      SinceNext(d, rest, from);
      ClosingNext(d, rest);
      ClosingNext(d, Since(rest, from));
      ClosingNext(d, Closing(rest));
      ClosingNext(d, Closing(Since(rest, from)));
    }
  }

  /** The realized columns of a row. */
  predicate Agree(x: Row, y: Row) {
    SameMoney(x, y) && x.result == y.result && x.exitDate == y.exitDate
  }

  /** The row the backfill writes of the deals a window from `from` on shows. */
  function WriteWindow(a: Account, row: Option<Row>, deals: seq<Deal>, from: int, now: int): Row {
    WriteBackfill(row, a.nominal, ReconstructClosed(a, Since(deals, from), now))
  }

  lemma CentsInjective(m: int, n: int)
    ensures Cents(m) == Cents(n) <==> m == n
  {
  }

  /** Rows that have booked totals hold the same amounts exactly when these are the same. */
  lemma BookedApart(u: Row, v: Row, t: CloseCents, w: CloseCents)
    requires BookedMoney(u, t) && BookedMoney(v, w)
    ensures u.grossProfit == v.grossProfit && u.commission == v.commission && u.swap == v.swap <==> t == w
    ensures t == w ==> u.profit == v.profit && u.pnl == v.pnl
  {
    CentsInjective(t.gross, w.gross);
    CentsInjective(t.commission, w.commission);
    CentsInjective(t.swap, w.swap);
  }

  /** Alike rows, written with totals, agree on the money exactly when the totals are the same. */
  lemma SameTotalsSameMoney(a: Account, x: Option<Row>, y: Option<Row>, ds: seq<Deal>, es: seq<Deal>, now: int,
      later: int)
    requires Alike(a.nominal, x, y)
    ensures var u := WriteBackfill(x, a.nominal, ReconstructClosed(a, ds, now));
      var v := WriteBackfill(y, a.nominal, ReconstructClosed(a, es, later));
      && (SameMoney(u, v) <==> Total(Closing(ds)) == Total(Closing(es)))
      && (SameMoney(u, v) ==> u.result == v.result)
  {
    var t, w := Total(Closing(ds)), Total(Closing(es));
    BatchMoney(a, x, ds, now);
    BatchMoney(a, y, es, later);
    BatchCloses(a, x, ds, now);
    BatchCloses(a, y, es, later);
    BookedApart(WriteBackfill(x, a.nominal, ReconstructClosed(a, ds, now)),
                WriteBackfill(y, a.nominal, ReconstructClosed(a, es, later)), t, w);
    if t == w { SameRatios(a, x, y, ds, es, now, later); }
  }

  lemma SameRatios(a: Account, x: Option<Row>, y: Option<Row>, ds: seq<Deal>, es: seq<Deal>, now: int, later: int)
    requires Alike(a.nominal, x, y) && Total(Closing(ds)) == Total(Closing(es))
    ensures var u := WriteBackfill(x, a.nominal, ReconstructClosed(a, ds, now));
      var v := WriteBackfill(y, a.nominal, ReconstructClosed(a, es, later));
      u.profitPercentage == v.profitPercentage && u.rr == v.rr && u.risk == v.risk
  {
    var gross := Cents(Total(Closing(ds)).gross);
    BatchRatios(x, a.nominal, ReconstructClosed(a, ds, now));
    BatchRatios(y, a.nominal, ReconstructClosed(a, es, later));
    AlikeRatios(a.nominal, x, y, RoundMoney(gross));
  }

  lemma AlikeRatios(nominal: real, x: Option<Row>, y: Option<Row>, gross: real)
    requires Alike(nominal, x, y)
    ensures var pct := ProfitPercentage(gross, nominal);
      && Keep(pct, StoredPercentage(x)) == Keep(pct, StoredPercentage(y))
      && Keep(TradeRr(gross, pct, nominal, RiskOf(x)), StoredRr(x))
         == Keep(TradeRr(gross, pct, nominal, RiskOf(y)), StoredRr(y))
  {
    RrComputable(gross, nominal, RiskOf(x));
  }

  /**
   * Two windows that both show a closing deal of the position lead to the same money, result and exit date if
   * and only if they hide the same money of it.
   */
  lemma CutsAgree(a: Account, x: Option<Row>, y: Option<Row>, deals: seq<Deal>, from: int, next: int, now: int,
      later: int)
    requires Alike(a.nominal, x, y) && from > 0 && next > 0
    requires Closing(Since(deals, from)) != [] && Closing(Since(deals, next)) != []
    ensures Agree(WriteWindow(a, x, deals, from, now), WriteWindow(a, y, deals, next, later)) <==>
              Hidden(deals, from) == Hidden(deals, next)
  {
    CutTotals(deals, from);
    CutTotals(deals, next);
    LatestIsShown(deals, from);
    LatestIsShown(deals, next);
    SameTotalsSameMoney(a, x, y, Since(deals, from), Since(deals, next), now, later);
  }

  /**
   * Rewriting a closed position from a later window, after any cTrader writes in between, keeps what a window
   * that hid nothing had written if and only if the closing deals it no longer shows add up to nothing.
   */
  lemma RerunExactly(a: Account, row: Option<Row>, ops: seq<Op>, deals: seq<Deal>, from: int, next: int, now: int,
      later: int)
    requires forall op :: op in ops ==> OpOf(None, op) && !op.SetRisk?
    requires from > 0 && next > 0 && Closing(Since(deals, from)) != [] && Closing(Since(deals, next)) != []
    requires Hidden(deals, from) == NOTHING
    ensures var first := WriteWindow(a, row, deals, from, now);
      Agree(WriteWindow(a, ApplyAll(None, a.nominal, Some(first), ops), deals, next, later), first) <==>
        Hidden(deals, next) == NOTHING
  {
    var first := WriteWindow(a, row, deals, from, now);
    var p := ReconstructClosed(a, Since(deals, from), now);
    WriteKeepsAlike(a.nominal, row, BackfillOp(p));
    WritesKeepAlike(a.nominal, Some(first), ops);
    CutsAgree(a, row, ApplyAll(None, a.nominal, Some(first), ops), deals, from, next, now, later);
  }

  /** The opening deals and the closing ones tell the same story: one symbol, opposite sides. */
  predicate Coherent(deals: seq<Deal>, symbolId: int, buy: bool) {
    forall d :: d in deals ==> d.symbolId == symbolId && (d.buy == buy <==> d.close.None?)
  }

  lemma {:induction false} PartsOf(deals: seq<Deal>, from: int)
    ensures forall d :: d in Since(deals, from) ==> d in deals
    ensures forall d :: d in Closing(deals) ==> d in deals && d.close.Some?
    ensures match FirstOpen(deals)
      case None => forall d :: d in deals ==> d.close.Some?
      case Some(o) => o in deals && o.close.None? && (o.executed >= from ==> FirstOpen(Since(deals, from)) == Some(o))
    decreases |deals|
  {
    if deals != [] {
      PartsOf(deals[1..], from);
      assert deals == [deals[0]] + deals[1..];
      assert ([deals[0]] + Since(deals[1..], from))[1..] == Since(deals[1..], from);
      assert [] + Since(deals[1..], from) == Since(deals[1..], from);
    }
  }

  /** What a coherent position looks like through any window that shows a deal of it. */
  lemma SeenFrom(a: Account, deals: seq<Deal>, symbolId: int, buy: bool, now: int)
    requires Coherent(deals, symbolId, buy) && deals != []
    ensures var e := ReconstructClosed(a, deals, now).entry;
      e.symbol == a.symbolName(symbolId) && e.side == Side(buy)
  {
    PartsOf(deals, 0);
    if FirstOpen(deals).None? {
      assert deals[0] in deals;
      assert Closing(deals)[0] in Closing(deals);
    }
  }

  lemma SeenMoney(a: Account, deals: seq<Deal>, from: int, now: int)
    requires from > 0 && Closing(Since(deals, from)) != []
    ensures var whole, late := ReconstructClosed(a, deals, now), ReconstructClosed(a, Since(deals, from), now);
      && late.exitDate == whole.exitDate
      && (late.gross == whole.gross && late.commission == whole.commission && late.swap == whole.swap <==>
            Hidden(deals, from) == NOTHING)
  {
    CutTotals(deals, from);
    LatestIsShown(deals, from);
    var t, w := Total(Closing(deals)), Total(Closing(Since(deals, from)));
    CentsInjective(t.gross, w.gross);
    CentsInjective(t.commission, w.commission);
    CentsInjective(t.swap, w.swap);
  }

  lemma SeenVolume(a: Account, deals: seq<Deal>, from: int, now: int)
    requires FirstOpen(deals).Some? && FirstOpen(Since(deals, from)).None?
    requires FilledVolume(Closing(deals)) == FirstOpen(deals).value.volume
    ensures var whole, late := ReconstructClosed(a, deals, now), ReconstructClosed(a, Since(deals, from), now);
      late.entry.quantity == whole.entry.quantity <==> HiddenVolume(deals, from) == 0
  {
    CutVolumes(deals, from);
  }

  /**
   * A position rebuilt from any window that still shows a closing deal of it: symbol, side and exit date are
   * those of the whole history; the money is if and only if the hidden closing deals add up to nothing. While the
   * first opening deal is shown so are the quantity and the entry date; with no opening deal shown the quantity of
   * a position all closed is the same if and only if the hidden deals closed no volume.
   */
  lemma OpeningOutsideWindow(a: Account, deals: seq<Deal>, symbolId: int, buy: bool, from: int, now: int)
    requires Coherent(deals, symbolId, buy) && from > 0 && Closing(Since(deals, from)) != []
    ensures var whole, late := ReconstructClosed(a, deals, now), ReconstructClosed(a, Since(deals, from), now);
      && late.entry.symbol == whole.entry.symbol && late.entry.side == whole.entry.side
      && late.exitDate == whole.exitDate
      && (late.gross == whole.gross && late.commission == whole.commission && late.swap == whole.swap <==>
            Hidden(deals, from) == NOTHING)
      && (FirstOpen(deals).Some? && FirstOpen(deals).value.executed >= from ==> late.entry == whole.entry)
      && (FirstOpen(deals).Some? && FirstOpen(Since(deals, from)).None?
          && FilledVolume(Closing(deals)) == FirstOpen(deals).value.volume ==>
            (late.entry.quantity == whole.entry.quantity <==> HiddenVolume(deals, from) == 0))
  {
    var shown := Since(deals, from);
    PartsOf(deals, from);
    PartsOf(shown, 0);
    assert Closing(shown)[0] in shown && Closing(shown)[0] in deals;
    SeenFrom(a, deals, symbolId, buy, now);
    SeenFrom(a, shown, symbolId, buy, now);
    SeenMoney(a, deals, from, now);
    if FirstOpen(deals).Some? && FirstOpen(shown).None?
       && FilledVolume(Closing(deals)) == FirstOpen(deals).value.volume {
      SeenVolume(a, deals, from, now);
    }
  }

  // ---- concurrent closing deals through the promise chains ----

  /** The cTrader writer's task body, as the chains run it. */
  function Writer(nominal: real): (Option<Row>, Op) -> Option<Row> {
    (row: Option<Row>, op: Op) => Apply(None, nominal, row, op)
  }

  function CentsOf(x: real): int {
    Round(x * 100.0)
  }

  predicate InCents(f: CloseFill) {
    f.gross == Cents(CentsOf(f.gross)) && f.commission == Cents(CentsOf(f.commission))
        && f.swap == Cents(CentsOf(f.swap))
  }

  /** The closing deals of key `k` among the calls that took effect, in the order of the calls. */
  function AppliedFills(calls: seq<SerialChains.Request<Op>>, landed: set<nat>, k: string): seq<CloseFill>
    decreases |calls|
  {
    if calls == [] then []
    else
      var n := |calls| - 1;
      AppliedFills(calls[..n], landed, k)
      + if calls[n].key == k && n in landed && calls[n].op.DealOp? then [calls[n].op.fill] else []
  }

  function DealOfFill(f: CloseFill): Deal {
    Deal(0, 0, 0, true, f.exitDate, f.exitDate,
        Some(CloseCents(CentsOf(f.gross), CentsOf(f.commission), CentsOf(f.swap))))
  }

  function DealsOf(fills: seq<CloseFill>): seq<Deal> {
    seq(|fills|, i requires 0 <= i < |fills| => DealOfFill(fills[i]))
  }

  lemma AfterOp(nominal: real, r: Option<Row>, op: Op)
    ensures SerialChains.After(Writer(nominal), r, op) ==
              if Apply(None, nominal, r, op).Some? then Apply(None, nominal, r, op) else r
  {
    assert Writer(nominal)(r, op) == Apply(None, nominal, r, op);
  }

  /** Unbooked, or booked with the totals of the fills. */
  predicate BookedFills(row: Option<Row>, fills: seq<CloseFill>) {
    if fills == [] then Unbooked(row) else row.Some? && BookedMoney(row.value, Total(DealsOf(fills)))
  }

  lemma OneMoreFill(nominal: real, row: Option<Row>, fills: seq<CloseFill>, t: CloseFill)
    requires BookedFills(row, fills) && InCents(t)
    ensures BookedFills(Some(ApplyClose(row, nominal, t)), fills + [t])
  {
    var d := DealOfFill(t);
    assert DealsOf(fills + [t]) == DealsOf(fills) + [d];
    TotalSnoc(DealsOf(fills), d);
    AddMoney(row, nominal, Total(DealsOf(fills)), d.close.value, t);
  }

  lemma OpenKeepsFills(row: Option<Row>, fills: seq<CloseFill>, e: Entry)
    requires BookedFills(row, fills)
    ensures BookedFills(Some(UpsertOpen(row, e)), fills)
  {
    if fills != [] { OpenKeepsMoney(row, e, Total(DealsOf(fills))); }
  }

  lemma OpenKeepsMoney(row: Option<Row>, e: Entry, t: CloseCents)
    requires row.Some? && BookedMoney(row.value, t)
    ensures BookedMoney(UpsertOpen(row, e), t)
  {
    var r := UpsertOpen(row, e);
    assert r.grossProfit == row.value.grossProfit && r.profit == row.value.profit && r.pnl == row.value.pnl;
  }

  /** One applied task of the key. */
  lemma TaskBooks(nominal: real, row: Option<Row>, fills: seq<CloseFill>, op: Op)
    requires BookedFills(row, fills) && (op.OpenOp? || (op.DealOp? && InCents(op.fill)))
    ensures BookedFills(SerialChains.After(Writer(nominal), row, op), fills + if op.DealOp? then [op.fill] else [])
  {
    AfterOp(nominal, row, op);
    if op.DealOp? {
      OneMoreFill(nominal, row, fills, op.fill);
    } else {
      OpenKeepsFills(row, fills, op.entry);
      assert fills + [] == fills;
    }
  }

  lemma {:induction false} EffectsBook(nominal: real, start: Option<Row>, calls: seq<SerialChains.Request<Op>>,
      landed: set<nat>, k: string)
    requires Unbooked(start) && OpensAndCloses(calls, k)
    ensures BookedFills(SerialChains.Effects(Writer(nominal), start, calls, landed, k), AppliedFills(calls, landed, k))
    decreases |calls|
  {
    if calls != [] {
      var n := |calls| - 1;
      var fills := AppliedFills(calls[..n], landed, k);
      EffectsBook(nominal, start, calls[..n], landed, k);
      if calls[n].key == k && n in landed {
        TaskBooks(nominal, SerialChains.Effects(Writer(nominal), start, calls[..n], landed, k), fills, calls[n].op);
      } else {
        assert fills + [] == fills;
      }
    }
  }

  predicate BookedTotals(row: Option<Row>, t: CloseCents) {
    && row.Some?
    && row.value.grossProfit == Some(Cents(t.gross)) && row.value.commission == Some(Cents(t.commission))
    && row.value.swap == Some(Cents(t.swap)) && row.value.pnl == Some(Cents(t.gross + t.commission + t.swap))
  }

  /** Every call of key `k` is an opening write or a closing deal of whole cents. */
  predicate OpensAndCloses(calls: seq<SerialChains.Request<Op>>, k: string) {
    forall i :: 0 <= i < |calls| && calls[i].key == k ==>
      calls[i].op.OpenOp? || (calls[i].op.DealOp? && InCents(calls[i].op.fill))
  }

  /**
   * For any interleaving of concurrent opening writes and closing deals of one position, with any of them
   * failing, the row has booked exactly the sum over the deals whose upsert took effect.
   */
  lemma ConcurrentDealsAddUp(nominal: real, start: map<string, Row>, es: seq<SerialChains.Event<Op>>, k: string)
    requires Unbooked(SerialChains.Lookup(start, k)) && OpensAndCloses(SerialChains.Submitted(es), k)
    ensures var landed := SerialChains.Landed(Writer(nominal), SerialChains.Idle(start), es);
      var row := SerialChains.Lookup(SerialChains.Run(Writer(nominal), SerialChains.Idle(start), es).rows, k);
      var fills := AppliedFills(SerialChains.Submitted(es), landed, k);
      if fills == [] then Unbooked(row) else BookedTotals(row, Total(DealsOf(fills)))
  {
    var calls, landed := SerialChains.Submitted(es), SerialChains.Landed(Writer(nominal), SerialChains.Idle(start), es);
    SerialChains.NoLostUpdate(Writer(nominal), start, es, k);
    EffectsBook(nominal, SerialChains.Lookup(start, k), calls, landed, k);
    FillsBooked(SerialChains.Effects(Writer(nominal), SerialChains.Lookup(start, k), calls, landed, k),
                AppliedFills(calls, landed, k));
  }

  lemma FillsBooked(row: Option<Row>, fills: seq<CloseFill>)
    requires BookedFills(row, fills)
    ensures if fills == [] then Unbooked(row) else BookedTotals(row, Total(DealsOf(fills)))
  {
    if fills != [] { MoneyIsTotals(row, Total(DealsOf(fills))); }
  }

  lemma MoneyIsTotals(row: Option<Row>, t: CloseCents)
    requires row.Some? && BookedMoney(row.value, t)
    ensures BookedTotals(row, t)
  {
  }
}
