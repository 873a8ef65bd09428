/** The bounded cursor walk over TradeLocker's close-trades report, with its early out and its retries. */
module CloseHistory {
  import opened Common

  const HISTORY_RATELIMIT_RETRIES: nat := 2

  /** A parsed report row; an amount that is missing or not a number counts as 0. */
  datatype Row = Row(
    positionId: string, instrument: Option<string>, sell: bool, openAmount: real, closeAmount: real,
    openMs: int, closeMs: int, profit: real, commission: real, swap: real, netProfit: Option<real>)

  datatype Trade = Trade(
    positionId: string, symbol: string, side: string, quantity: real, entryDate: int, exitDate: int,
    gross: real, commission: real, swap: real, net: Option<real>)

  /** A row that does not parse is None; an empty `next` is the end of the cursor. */
  datatype Body = Rows(rows: seq<Option<Row>>, next: string) | Unrecognized

  datatype Response = Response(status: int, body: Body)

  /** What the server answers for a cursor, at each attempt of one page. */
  type Server = (string, nat) -> Response

  datatype Result = Ok(trades: seq<Trade>) | Failed

  function ToClosedTrade(row: Row): Option<Trade> {
    if row.positionId == "" || row.closeMs <= 0 then None
    else
      var quantity :=
        if row.openAmount > 0.0 && row.closeAmount > 0.0
        then (if row.openAmount < row.closeAmount then row.openAmount else row.closeAmount)
        else if row.closeAmount != 0.0 then row.closeAmount else row.openAmount;
      Some(Trade(row.positionId, if row.instrument.Some? then row.instrument.value else "INSTRUMENT_" + row.positionId,
                 if row.sell then "SELL" else "BUY", quantity, if row.openMs > 0 then row.openMs else row.closeMs,
                 row.closeMs, row.profit, row.commission, row.swap, row.netProfit))
  }

  function Parsed(row: Option<Row>): Option<Trade> {
    if row.Some? then ToClosedTrade(row.value) else None
  }

  function TradesOf(rows: seq<Option<Row>>): seq<Trade>
    decreases |rows|
  {
    if rows == [] then []
    else
      var n := |rows| - 1;
      TradesOf(rows[..n]) + if Parsed(rows[n]).Some? then [Parsed(rows[n]).value] else []
  }

  predicate Has(ts: seq<Trade>, id: string) {
    exists i :: 0 <= i < |ts| && ts[i].positionId == id
  }

  /** HTTP 429 is retried, a bounded number of times. */
  function PageOf(server: Server, cursor: string, attempt: nat): Response
    requires attempt <= HISTORY_RATELIMIT_RETRIES
    decreases HISTORY_RATELIMIT_RETRIES - attempt
  {
    if server(cursor, attempt).status == 429 && attempt < HISTORY_RATELIMIT_RETRIES then
      PageOf(server, cursor, attempt + 1)
    else server(cursor, attempt)
  }

  predicate Good(r: Response) {
    200 <= r.status <= 299 && r.body.Rows?
  }

  function Page(server: Server, cursor: string): Response {
    PageOf(server, cursor, 0)
  }

  function Prepend(ts: seq<Trade>, r: Result): Result {
    match r
    case Ok(more) => Ok(ts + more)
    case Failed => Failed
  }

  /** The walk from a cursor, over at most `pages` pages; an empty `until` looks for no position. */
  function Walk(server: Server, until: string, cursor: string, pages: nat): Result
    decreases pages
  {
    if pages == 0 then Ok([])
    else
      var r := Page(server, cursor);
      if !Good(r) then Failed
      else
        var ts := TradesOf(r.body.rows);
        if (until != "" && Has(ts, until)) || r.body.next == "" then Ok(ts)
        else Prepend(ts, Walk(server, until, r.body.next, pages - 1))
  }

  method GetPage(server: Server, cursor: string) returns (r: Response, requests: nat)
    ensures r == Page(server, cursor) && 1 <= requests <= HISTORY_RATELIMIT_RETRIES + 1
  {
    var attempt: nat := 0;
    r := server(cursor, 0);
    while r.status == 429 && attempt < HISTORY_RATELIMIT_RETRIES
      invariant attempt <= HISTORY_RATELIMIT_RETRIES && r == server(cursor, attempt)
      invariant PageOf(server, cursor, attempt) == Page(server, cursor)
      decreases HISTORY_RATELIMIT_RETRIES - attempt
    {
      attempt := attempt + 1;
      r := server(cursor, attempt);
    }
    requests := attempt + 1;
  }

  method FetchClosedTrades(server: Server, until: string, maxPages: nat) returns (result: Result, requests: nat)
    ensures result == Walk(server, until, "", maxPages)
    ensures requests <= maxPages * (HISTORY_RATELIMIT_RETRIES + 1)
  {
    var out: seq<Trade> := [];
    var cursor := "";
    requests := 0;
    var page := 0;
    while page < maxPages
      invariant page <= maxPages && requests <= page * (HISTORY_RATELIMIT_RETRIES + 1)
      invariant Walk(server, until, "", maxPages) == Prepend(out, Walk(server, until, cursor, maxPages - page))
      decreases maxPages - page
    {
      var r, n := GetPage(server, cursor);
      requests := requests + n;
      WalkTurn(server, until, cursor, maxPages - page, out);
      if !Good(r) { return Failed, requests; }
      var ts, hitTarget := ReadRows(r.body.rows, until);
      out := out + ts;
      if hitTarget || r.body.next == "" { return Ok(out), requests; }
      cursor := r.body.next;
      page := page + 1;
    }
    result := Ok(out);
  }

  /** One turn of the page loop. */
  lemma WalkTurn(server: Server, until: string, cursor: string, pages: nat, out: seq<Trade>)
    requires pages > 0
    ensures var r := Page(server, cursor); var all := Prepend(out, Walk(server, until, cursor, pages));
      if !Good(r) then all == Failed
      else
        var ts := TradesOf(r.body.rows);
        if (until != "" && Has(ts, until)) || r.body.next == "" then all == Ok(out + ts)
        else all == Prepend(out + ts, Walk(server, until, r.body.next, pages - 1))
  {
    var r := Page(server, cursor);
    if Good(r) { PrependConcat(out, TradesOf(r.body.rows), Walk(server, until, r.body.next, pages - 1)); }
  }

  method ReadRows(rows: seq<Option<Row>>, until: string) returns (ts: seq<Trade>, hitTarget: bool)
    ensures ts == TradesOf(rows) && (hitTarget <==> until != "" && Has(ts, until))
  {
    ts, hitTarget := [], false;
    for i := 0 to |rows|
      invariant ts == TradesOf(rows[..i]) && (hitTarget <==> until != "" && Has(ts, until))
    {
      assert rows[..i + 1][..i] == rows[..i];
      var trade := Parsed(rows[i]);
      if trade.Some? {
        HasSnoc(ts, trade.value, until);
        ts := ts + [trade.value];
        if until != "" && trade.value.positionId == until { hitTarget := true; }
      }
    }
    assert rows[..|rows|] == rows;
  }

  lemma HasSnoc(ts: seq<Trade>, t: Trade, id: string)
    ensures Has(ts + [t], id) <==> Has(ts, id) || t.positionId == id
  {
    if i :| 0 <= i < |ts| && ts[i].positionId == id { assert (ts + [t])[i].positionId == id; }
    if t.positionId == id { assert (ts + [t])[|ts|].positionId == id; }
  }

  lemma PrependConcat(a: seq<Trade>, b: seq<Trade>, r: Result)
    ensures Prepend(a, Prepend(b, r)) == Prepend(a + b, r)
  {
    if r.Ok? { assert a + (b + r.trades) == a + b + r.trades; }
  }

  /** The trade is the row's: its position, symbol, side, times and amounts, and what was both opened and closed. */
  predicate Describes(row: Row, t: Trade) {
    && row.positionId != "" && row.closeMs > 0
    && t.positionId == row.positionId && t.exitDate == row.closeMs
    && t.entryDate == (if row.openMs > 0 then row.openMs else row.closeMs)
    && (row.sell <==> t.side == "SELL") && (!row.sell <==> t.side == "BUY")
    && t.symbol == (match row.instrument case Some(name) => name case None => "INSTRUMENT_" + row.positionId)
    && t.gross == row.profit && t.commission == row.commission && t.swap == row.swap && t.net == row.netProfit
    && (t.quantity == row.openAmount || t.quantity == row.closeAmount)
    && (t.quantity == 0.0 <==> row.openAmount == 0.0 && row.closeAmount == 0.0)
    && (row.openAmount > 0.0 && row.closeAmount > 0.0 ==>
        t.quantity <= row.openAmount && t.quantity <= row.closeAmount)
  }

  /** A row becomes a trade exactly when it names a position and a close time. */
  lemma RealizedExactly(row: Row)
    ensures ToClosedTrade(row).Some? <==> row.positionId != "" && row.closeMs > 0
    ensures ToClosedTrade(row).Some? ==> Describes(row, ToClosedTrade(row).value)
  {
  }

  // ---- what a walk returns ----

  lemma {:induction false} TradesExactly(rows: seq<Option<Row>>, t: Trade)
    ensures t in TradesOf(rows) <==> exists row :: row in rows && Parsed(row) == Some(t)
    decreases |rows|
  {
    if rows != [] {
      var n := |rows| - 1;
      TradesExactly(rows[..n], t);
      assert rows == rows[..n] + [rows[n]];
    }
  }

  /** The cursor of the page `i` pages on, while there is one. */
  function CursorAfter(server: Server, cursor: string, i: nat): Option<string>
    decreases i
  {
    if i == 0 then Some(cursor)
    else
      var r := Page(server, cursor);
      if r.body.Rows? && r.body.next != "" then CursorAfter(server, r.body.next, i - 1) else None
  }

  /** Some row of the page `i` pages on reads as the trade. */
  ghost predicate OnPage(server: Server, cursor: string, i: nat, t: Trade) {
    match CursorAfter(server, cursor, i)
    case None => false
    case Some(c) =>
      var body := Page(server, c).body;
      body.Rows? && exists row :: row in body.rows && Parsed(row) == Some(t)
  }

  lemma OnPageNext(server: Server, cursor: string, i: nat, t: Trade)
    requires Good(Page(server, cursor)) && Page(server, cursor).body.next != ""
    ensures OnPage(server, cursor, i + 1, t) <==> OnPage(server, Page(server, cursor).body.next, i, t)
  {
  }

  /** A walk that succeeds returns exactly the realized rows of its pages: none is dropped, none made up. */
  lemma {:induction false} WalkExactly(server: Server, cursor: string, pages: nat, t: Trade)
    requires Walk(server, "", cursor, pages).Ok?
    ensures t in Walk(server, "", cursor, pages).trades <==> exists i: nat :: i < pages && OnPage(server, cursor, i, t)
    decreases pages
  {
    if pages > 0 {
      var r := Page(server, cursor);
      var next := r.body.next;
      TradesExactly(r.body.rows, t);
      assert t in TradesOf(r.body.rows) <==> OnPage(server, cursor, 0, t);
      if next != "" {
        WalkExactly(server, next, pages - 1, t);
        forall i: nat ensures OnPage(server, cursor, i + 1, t) <==> OnPage(server, next, i, t) {
          OnPageNext(server, cursor, i, t);
        }
        LaterPages(server, cursor, next, pages, t);
      } else {
        forall i: nat | i > 0 ensures !OnPage(server, cursor, i, t) {}
      }
    }
  }

  /** The row stands on one of the pages. */
  ghost predicate RowOn(server: Server, cursor: string, pages: nat, row: Row) {
    exists i: nat :: i < pages && RowOnPage(server, cursor, i, row)
  }

  ghost predicate RowOnPage(server: Server, cursor: string, i: nat, row: Row) {
    var at := CursorAfter(server, cursor, i);
    at.Some? && Page(server, at.value).body.Rows? && Some(row) in Page(server, at.value).body.rows
  }

  /**
   * The rows of the walked pages that name a position and a close time and the trades returned describe each other:
   * none is missing and none made up.
   */
  lemma WalkRealized(server: Server, cursor: string, pages: nat)
    requires Walk(server, "", cursor, pages).Ok?
    ensures var trades := Walk(server, "", cursor, pages).trades;
      && (forall row :: RowOn(server, cursor, pages, row) && row.positionId != "" && row.closeMs > 0 ==>
            exists t :: t in trades && Describes(row, t))
      && (forall t :: t in trades ==> exists row :: RowOn(server, cursor, pages, row) && Describes(row, t))
  {
    var trades := Walk(server, "", cursor, pages).trades;
    forall row | RowOn(server, cursor, pages, row) && row.positionId != "" && row.closeMs > 0
      ensures exists t :: t in trades && Describes(row, t)
    {
      var i: nat :| i < pages && RowOnPage(server, cursor, i, row);
      RealizedExactly(row);
      WalkExactly(server, cursor, pages, ToClosedTrade(row).value);
      assert Parsed(Some(row)) == ToClosedTrade(row) && OnPage(server, cursor, i, ToClosedTrade(row).value);
    }
    forall t | t in trades ensures exists row :: RowOn(server, cursor, pages, row) && Describes(row, t) {
      WalkExactly(server, cursor, pages, t);
      var i: nat :| i < pages && OnPage(server, cursor, i, t);
      var row :| row in Page(server, CursorAfter(server, cursor, i).value).body.rows && Parsed(row) == Some(t);
      RealizedExactly(row.value);
      assert RowOnPage(server, cursor, i, row.value);
    }
  }

  /** The answer for a page is the first that is no 429, or the last one allowed. */
  lemma {:induction false} PageExactly(server: Server, cursor: string, from: nat) returns (k: nat)
    requires from <= HISTORY_RATELIMIT_RETRIES
    ensures from <= k <= HISTORY_RATELIMIT_RETRIES && PageOf(server, cursor, from) == server(cursor, k)
    ensures forall i: nat :: from <= i < k ==> server(cursor, i).status == 429
    ensures server(cursor, k).status != 429 || k == HISTORY_RATELIMIT_RETRIES
    decreases HISTORY_RATELIMIT_RETRIES - from
  {
    k := from;
    if server(cursor, from).status == 429 && from < HISTORY_RATELIMIT_RETRIES {
      k := PageExactly(server, cursor, from + 1);
    }
  }

  /** The page there is `i` pages on was answered with a success and the expected shape. */
  predicate Answered(server: Server, cursor: string, i: nat) {
    var at := CursorAfter(server, cursor, i);
    at.Some? ==> Page(server, at.value).body.Rows? && 200 <= Page(server, at.value).status <= 299
  }

  lemma AnsweredNext(server: Server, cursor: string, i: nat)
    requires Page(server, cursor).body.Rows? && Page(server, cursor).body.next != ""
    ensures Answered(server, cursor, i + 1) <==> Answered(server, Page(server, cursor).body.next, i)
  {
  }

  /** A walk fails exactly when one of its pages is answered with an error or an unrecognized body. */
  lemma {:induction false} WalkSucceedsExactly(server: Server, cursor: string, pages: nat)
    ensures Walk(server, "", cursor, pages).Ok? <==> forall i: nat :: i < pages ==> Answered(server, cursor, i)
    decreases pages
  {
    if pages > 0 {
      var r := Page(server, cursor);
      assert Answered(server, cursor, 0) <==> Good(r);
      if Good(r) && r.body.next != "" {
        WalkSucceedsExactly(server, r.body.next, pages - 1);
        forall i: nat ensures Answered(server, cursor, i + 1) <==> Answered(server, r.body.next, i) {
          AnsweredNext(server, cursor, i);
        }
        if forall i: nat :: i < pages - 1 ==> Answered(server, r.body.next, i) {
          forall i: nat | i < pages ensures Answered(server, cursor, i) {
            if i > 0 { assert Answered(server, cursor, i - 1 + 1) <==> Answered(server, r.body.next, i - 1); }
          }
        } else {
          var i: nat :| i < pages - 1 && !Answered(server, r.body.next, i);
          assert !Answered(server, cursor, i + 1);
        }
      } else if Good(r) {
        forall i: nat | i > 0 ensures Answered(server, cursor, i) {}
      }
    }
  }

  lemma LaterPages(server: Server, cursor: string, next: string, pages: nat, t: Trade)
    requires pages > 0 && forall i: nat :: OnPage(server, cursor, i + 1, t) <==> OnPage(server, next, i, t)
    ensures (exists i: nat :: i < pages && OnPage(server, cursor, i, t)) <==>
              OnPage(server, cursor, 0, t) || exists i: nat :: i < pages - 1 && OnPage(server, next, i, t)
  {
    if i: nat :| i < pages && OnPage(server, cursor, i, t) {
      if i > 0 { assert OnPage(server, next, i - 1, t) <==> OnPage(server, cursor, i - 1 + 1, t); }
    }
    if i: nat :| i < pages - 1 && OnPage(server, next, i, t) { assert OnPage(server, cursor, i + 1, t); }
    if OnPage(server, cursor, 0, t) { assert exists i: nat :: i < pages && OnPage(server, cursor, i, t); }
  }

  /** The first trade of a position in a list. */
  function First(ts: seq<Trade>, id: string): Option<Trade> {
    if ts == [] then None else if ts[0].positionId == id then Some(ts[0]) else First(ts[1..], id)
  }

  lemma {:induction false} FirstConcat(a: seq<Trade>, b: seq<Trade>, id: string)
    ensures First(a + b, id) == if First(a, id).Some? then First(a, id) else First(b, id)
    ensures First(a, id).Some? <==> Has(a, id)
    decreases |a|
  {
    if a == [] {
      assert a + b == b;
    } else {
      assert (a + b)[1..] == a[1..] + b;
      FirstConcat(a[1..], b, id);
      if i :| 0 <= i < |a| && a[i].positionId == id && i > 0 { assert a[1..][i - 1].positionId == id; }
      if i :| 0 <= i < |a[1..]| && a[1..][i].positionId == id { assert a[i + 1].positionId == id; }
    }
  }

  /**
   * Stopping early loses nothing: the position found is the one the full walk would have found, or neither finds it.
   */
  lemma {:induction false} EarlyOutFindsTheSame(server: Server, id: string, cursor: string, pages: nat)
    requires id != "" && Walk(server, "", cursor, pages).Ok?
    ensures Walk(server, id, cursor, pages).Ok?
    ensures First(Walk(server, id, cursor, pages).trades, id) == First(Walk(server, "", cursor, pages).trades, id)
    ensures Walk(server, id, cursor, pages).trades <= Walk(server, "", cursor, pages).trades
    decreases pages
  {
    if pages > 0 {
      var r := Page(server, cursor);
      var ts := TradesOf(r.body.rows);
      if r.body.next != "" {
        EarlyOutFindsTheSame(server, id, r.body.next, pages - 1);
        FirstConcat(ts, Walk(server, "", r.body.next, pages - 1).trades, id);
        FirstConcat(ts, Walk(server, id, r.body.next, pages - 1).trades, id);
      }
    }
  }

  /** A walk bounded to fewer pages returns the newest part of a longer one. */
  lemma {:induction false} FewerPagesIsPrefix(server: Server, until: string, cursor: string, few: nat, many: nat)
    requires few <= many && Walk(server, until, cursor, many).Ok?
    ensures Walk(server, until, cursor, few).Ok?
    ensures Walk(server, until, cursor, few).trades <= Walk(server, until, cursor, many).trades
    decreases few
  {
    if few > 0 {
      var r := Page(server, cursor);
      if !(until != "" && Has(TradesOf(r.body.rows), until)) && r.body.next != "" {
        FewerPagesIsPrefix(server, until, r.body.next, few - 1, many - 1);
      }
    }
  }
}
