/** Rebuilding MT5 positions from their deals, with the migration clamp. Money is exact reals. */
module DealAggregator {
  import opened Common
  import Grouping

  datatype DealType = Buy | Sell | Balance | OtherType

  datatype Entry = In | Out | OtherEntry

  /** An empty `positionId` or `symbol` is a missing one; a missing amount counts as 0. */
  datatype Deal = Deal(
    kind: DealType, positionId: string, entry: Entry, time: int, symbol: string, volume: Option<real>,
    profit: Option<real>, commission: Option<real>, swap: Option<real>)

  datatype Position = Position(
    positionId: string, symbol: string, side: string, quantity: real, entryDate: int, exitDate: Option<int>,
    gross: real, commission: real, swap: real)

  /** The three amounts of a deal. */
  datatype Column = Profit | Commission | Swap

  function PositionId(d: Deal): string { d.positionId }

  // ---- choosing deals ----

  /** What the aggregation filters by. `After(None)` keeps everything. */
  datatype Filter = Trades | OfPosition(id: string) | Closing | After(clamp: Option<int>) | Until(time: int)

  predicate Keeps(f: Filter, d: Deal) {
    match f
    case Trades => d.kind != Balance && d.positionId != ""
    case OfPosition(id) => d.positionId == id
    case Closing => d.entry == Out
    case After(clamp) => clamp.None? || d.time > clamp.value
    case Until(time) => d.time <= time
  }

  function Where(ds: seq<Deal>, f: Filter): seq<Deal>
    decreases |ds|
  {
    if ds == [] then []
    else
      var n := |ds| - 1;
      Where(ds[..n], f) + if Keeps(f, ds[n]) then [ds[n]] else []
  }

  lemma {:induction false} WhereExactly(ds: seq<Deal>, f: Filter)
    ensures forall d :: d in Where(ds, f) <==> d in ds && Keeps(f, d)
    decreases |ds|
  {
    if ds != [] {
      var n := |ds| - 1;
      assert ds == ds[..n] + [ds[n]];
      WhereExactly(ds[..n], f);
    }
  }

  lemma WhereSnoc(ds: seq<Deal>, d: Deal, f: Filter)
    ensures Where(ds + [d], f) == if Keeps(f, d) then Where(ds, f) + [d] else Where(ds, f)
  {
    assert (ds + [d])[..|ds|] == ds;
  }

  lemma {:induction false} WhereAll(ds: seq<Deal>)
    ensures Where(ds, After(None)) == ds
    decreases |ds|
  {
    if ds != [] {
      WhereAll(ds[..|ds| - 1]);
      assert ds == ds[..|ds| - 1] + [ds[|ds| - 1]];
    }
  }

  // ---- sorting by time ----

  /** After every deal that is not later: the sort is stable. */
  function Insert(d: Deal, ds: seq<Deal>): seq<Deal>
    decreases |ds|
  {
    if ds == [] || ds[|ds| - 1].time <= d.time then ds + [d]
    else Insert(d, ds[..|ds| - 1]) + [ds[|ds| - 1]]
  }

  function ByTime(ds: seq<Deal>): seq<Deal>
    decreases |ds|
  {
    if ds == [] then [] else Insert(ds[|ds| - 1], ByTime(ds[..|ds| - 1]))
  }

  predicate Chronological(ds: seq<Deal>) {
    forall i, j :: 0 <= i < j < |ds| ==> ds[i].time <= ds[j].time
  }

  lemma {:induction false} InsertMembers(d: Deal, ds: seq<Deal>)
    ensures forall x :: x in Insert(d, ds) <==> x == d || x in ds
    decreases |ds|
  {
    if ds != [] && ds[|ds| - 1].time > d.time {
      var n := |ds| - 1;
      assert ds == ds[..n] + [ds[n]];
      InsertMembers(d, ds[..n]);
    }
  }

  lemma {:induction false} ByTimeMembers(ds: seq<Deal>)
    ensures forall x :: x in ByTime(ds) <==> x in ds
    decreases |ds|
  {
    if ds != [] {
      var n := |ds| - 1;
      assert ds == ds[..n] + [ds[n]];
      ByTimeMembers(ds[..n]);
      InsertMembers(ds[n], ByTime(ds[..n]));
    }
  }

  lemma ChronologicalSnoc(ds: seq<Deal>, d: Deal)
    requires Chronological(ds) && forall x :: x in ds ==> x.time <= d.time
    ensures Chronological(ds + [d])
  {
    forall i | 0 <= i < |ds| ensures ds[i].time <= d.time { assert ds[i] in ds; }
  }

  lemma {:induction false} InsertSorted(d: Deal, ds: seq<Deal>)
    requires Chronological(ds)
    ensures Chronological(Insert(d, ds))
    decreases |ds|
  {
    if ds != [] && ds[|ds| - 1].time > d.time {
      var n := |ds| - 1;
      InsertSorted(d, ds[..n]);
      InsertMembers(d, ds[..n]);
      forall x | x in Insert(d, ds[..n]) ensures x.time <= ds[n].time {
        if x != d { var j :| 0 <= j < n && ds[..n][j] == x; }
      }
      ChronologicalSnoc(Insert(d, ds[..n]), ds[n]);
    }
  }

  lemma {:induction false} ByTimeSorted(ds: seq<Deal>)
    ensures Chronological(ByTime(ds))
    decreases |ds|
  {
    if ds != [] {
      ByTimeSorted(ds[..|ds| - 1]);
      InsertSorted(ds[|ds| - 1], ByTime(ds[..|ds| - 1]));
    }
  }

  lemma {:induction false} WhereChronological(ds: seq<Deal>, f: Filter)
    requires Chronological(ds)
    ensures Chronological(Where(ds, f))
    decreases |ds|
  {
    if ds != [] {
      var n := |ds| - 1;
      WhereChronological(ds[..n], f);
      WhereExactly(ds[..n], f);
      if Keeps(f, ds[n]) {
        forall x | x in Where(ds[..n], f) ensures x.time <= ds[n].time {
          var j :| 0 <= j < n && ds[..n][j] == x;
        }
        ChronologicalSnoc(Where(ds[..n], f), ds[n]);
      }
    }
  }

  // ---- one position ----

  function Amount(x: Option<real>): real {
    if x.Some? then x.value else 0.0
  }

  function Booked(d: Deal, c: Column): real {
    match c
    case Profit => Amount(d.profit)
    case Commission => Amount(d.commission)
    case Swap => Amount(d.swap)
  }

  function Sum(ds: seq<Deal>, c: Column): real
    decreases |ds|
  {
    if ds == [] then 0.0 else Sum(ds[..|ds| - 1], c) + Booked(ds[|ds| - 1], c)
  }

  /** The earliest opening deal. */
  function Opening(sorted: seq<Deal>): Option<Deal> {
    if sorted == [] then None else if sorted[0].entry == In then Some(sorted[0]) else Opening(sorted[1..])
  }

  function ExitDate(sorted: seq<Deal>, isOpen: bool): Option<int> {
    var closing := Where(sorted, Closing);
    if isOpen || closing == [] then None else Some(closing[|closing| - 1].time)
  }

  function Describe(id: string, opening: Deal, exitDate: Option<int>, owned: seq<Deal>): Position
    requires opening.volume.Some?
  {
    var side := if opening.kind == Buy then "BUY" else "SELL";
    Position(id, opening.symbol, side, opening.volume.value, opening.time, exitDate,
             Sum(owned, Profit), Sum(owned, Commission), Sum(owned, Swap))
  }

  /** The position of one group of deals, or nothing when its opening is unknown or it closed by the clamp. */
  function Rebuild(id: string, group: seq<Deal>, isOpen: bool, clamp: Option<int>): Option<Position> {
    var sorted := ByTime(group);
    var opening := Opening(sorted);
    if opening.None? || opening.value.symbol == "" || opening.value.volume.None? then None
    else
      var exitDate := ExitDate(sorted, isOpen);
      if clamp.Some? && exitDate.Some? && exitDate.value <= clamp.value then None
      else Some(Describe(id, opening.value, exitDate, Where(sorted, After(clamp))))
  }

  // ---- all positions ----

  /** What each id's group rebuilds to. */
  function Rebuilder(trades: seq<Deal>, open: set<string>, clamp: Option<int>): string -> Option<Position> {
    (id: string) => Rebuild(id, Grouping.Members(trades, PositionId, id), id in open, clamp)
  }

  function Collect(ids: seq<string>, rebuild: string -> Option<Position>): seq<Position>
    decreases |ids|
  {
    if ids == [] then []
    else
      var p := rebuild(ids[|ids| - 1]);
      Collect(ids[..|ids| - 1], rebuild) + if p.Some? then [p.value] else []
  }

  function Ids(deals: seq<Deal>): seq<string> {
    Grouping.KeysOf(Where(deals, Trades), PositionId)
  }

  function Group(deals: seq<Deal>, id: string): seq<Deal> {
    Grouping.Members(Where(deals, Trades), PositionId, id)
  }

  /** The positions of a list of deals, in the order their first deals appear. */
  function Aggregate(deals: seq<Deal>, open: set<string>, clamp: Option<int>): seq<Position> {
    Collect(Ids(deals), Rebuilder(Where(deals, Trades), open, clamp))
  }

  method AggregateDeals(deals: seq<Deal>, open: set<string>, clamp: Option<int>) returns (positions: seq<Position>)
    ensures positions == Aggregate(deals, open, clamp)
  {
    var trades := [];
    for i := 0 to |deals|
      invariant trades == Where(deals[..i], Trades)
    {
      assert deals[..i + 1][..i] == deals[..i];
      if deals[i].kind != Balance && deals[i].positionId != "" { trades := trades + [deals[i]]; }
    }
    assert deals[..|deals|] == deals;
    var order, groups := Grouping.Group(trades, PositionId);
    forall i | 0 <= i < |order|
      ensures order[i] in groups && groups[order[i]] == Grouping.Members(trades, PositionId, order[i])
    {
      Grouping.GroupOf(groups, trades, PositionId, order[i]);
    }
    positions := CollectGroups(order, groups, open, clamp, Rebuilder(trades, open, clamp));
  }

  method CollectGroups(order: seq<string>, groups: map<string, seq<Deal>>, open: set<string>, clamp: Option<int>,
      ghost rebuild: string -> Option<Position>) returns (positions: seq<Position>)
    requires forall i :: 0 <= i < |order| ==>
      order[i] in groups && rebuild(order[i]) == Rebuild(order[i], groups[order[i]], order[i] in open, clamp)
    ensures positions == Collect(order, rebuild)
  {
    positions := [];
    for i := 0 to |order|
      invariant positions == Collect(order[..i], rebuild)
    {
      assert order[..i + 1][..i] == order[..i];
      var position := RebuildPosition(order[i], groups[order[i]], order[i] in open, clamp);
      if position.Some? { positions := positions + [position.value]; }
    }
    assert order[..|order|] == order;
  }

  method RebuildPosition(id: string, group: seq<Deal>, isOpen: bool, clamp: Option<int>) returns (p: Option<Position>)
    ensures p == Rebuild(id, group, isOpen, clamp)
  {
    var sorted := ByTime(group);
    var opening := Opening(sorted);
    if opening.None? || opening.value.symbol == "" || opening.value.volume.None? { return None; }
    var closing := Where(sorted, Closing);
    var exitDate := None;
    if !isOpen && closing != [] { exitDate := Some(closing[|closing| - 1].time); }
    var owned := sorted;
    if clamp.Some? {
      if exitDate.Some? && exitDate.value <= clamp.value { return None; }
      owned := Where(sorted, After(clamp));
    } else {
      WhereAll(sorted);
    }
    p := Some(Describe(id, opening.value, exitDate, owned));
  }

  // ---- each position once, and on its own ----

  predicate DistinctIds(ps: seq<Position>) {
    forall i, j :: 0 <= i < j < |ps| ==> ps[i].positionId != ps[j].positionId
  }

  /** Rebuilding under an id gives a position of that id. */
  ghost predicate Faithful(rebuild: string -> Option<Position>) {
    forall id :: rebuild(id).Some? ==> rebuild(id).value.positionId == id
  }

  /** A position comes out exactly when it is one of the ids and its group rebuilds to it. */
  lemma {:induction false} CollectExactly(ids: seq<string>, rebuild: string -> Option<Position>)
    requires Faithful(rebuild)
    ensures forall p :: p in Collect(ids, rebuild) <==> p.positionId in ids && rebuild(p.positionId) == Some(p)
    decreases |ids|
  {
    if ids != [] {
      var n := |ids| - 1;
      CollectExactly(ids[..n], rebuild);
      assert ids == ids[..n] + [ids[n]];
    }
  }

  lemma {:induction false} CollectDistinct(ids: seq<string>, rebuild: string -> Option<Position>)
    requires Grouping.Distinct(ids) && Faithful(rebuild)
    ensures DistinctIds(Collect(ids, rebuild))
    decreases |ids|
  {
    if ids != [] {
      var n := |ids| - 1;
      CollectDistinct(ids[..n], rebuild);
      CollectExactly(ids[..n], rebuild);
      var ps := Collect(ids[..n], rebuild);
      forall i | 0 <= i < |ps| ensures ps[i].positionId != ids[n] { assert ps[i] in ps; }
    }
  }

  /** A reported position is one of the list, rebuilt from its own group. */
  lemma Reported(deals: seq<Deal>, open: set<string>, clamp: Option<int>, p: Position)
    ensures p in Aggregate(deals, open, clamp) <==>
              p.positionId in Ids(deals)
                  && Rebuild(p.positionId, Group(deals, p.positionId), p.positionId in open, clamp) == Some(p)
  {
    CollectExactly(Ids(deals), Rebuilder(Where(deals, Trades), open, clamp));
  }

  /** Each position appears at most once. */
  lemma EachPositionOnce(deals: seq<Deal>, open: set<string>, clamp: Option<int>)
    ensures DistinctIds(Aggregate(deals, open, clamp))
  {
    Grouping.KeysDistinct(Where(deals, Trades), PositionId);
    CollectDistinct(Ids(deals), Rebuilder(Where(deals, Trades), open, clamp));
  }

  /** The trades among one position's deals are its group. */
  lemma {:induction false} TradesOfOne(deals: seq<Deal>, id: string)
    ensures Where(Where(deals, OfPosition(id)), Trades) == Group(deals, id)
    decreases |deals|
  {
    if deals != [] {
      var n := |deals| - 1;
      TradesOfOne(deals[..n], id);
      TradesOfOneSnoc(deals[..n], deals[n], id);
      assert deals == deals[..n] + [deals[n]];
    }
  }

  lemma TradesOfOneSnoc(deals: seq<Deal>, d: Deal, id: string)
    requires Where(Where(deals, OfPosition(id)), Trades) == Group(deals, id)
    ensures Where(Where(deals + [d], OfPosition(id)), Trades) == Group(deals + [d], id)
  {
    WhereSnoc(deals, d, OfPosition(id));
    WhereSnoc(deals, d, Trades);
    if Keeps(OfPosition(id), d) { WhereSnoc(Where(deals, OfPosition(id)), d, Trades); }
    if Keeps(Trades, d) { Grouping.Extend(Where(deals, Trades), PositionId, d); }
  }

  /**
   * Locality: aggregating one position's deals alone, as the live refetch does, gives just what aggregating
   * the whole history gives for it.
   */
  lemma OnePositionAlone(deals: seq<Deal>, open: set<string>, clamp: Option<int>, id: string, p: Position)
    ensures p in Aggregate(Where(deals, OfPosition(id)), open, clamp) <==>
        p in Aggregate(deals, open, clamp) && p.positionId == id
  {
    var own := Where(deals, OfPosition(id));
    TradesOfOne(deals, id);
    Grouping.MembersOfMembers(Where(deals, Trades), PositionId, id);
    Reported(deals, open, clamp, p);
    Reported(own, open, clamp, p);
  }

  // ---- the clamp ----

  /** The sum over the deals kept. */
  function SumIf(ds: seq<Deal>, f: Filter, c: Column): real
    decreases |ds|
  {
    if ds == [] then 0.0
    else
      var n := |ds| - 1;
      SumIf(ds[..n], f, c) + if Keeps(f, ds[n]) then Booked(ds[n], c) else 0.0
  }

  lemma SumSnoc(ds: seq<Deal>, d: Deal, c: Column)
    ensures Sum(ds + [d], c) == Sum(ds, c) + Booked(d, c)
  {
    assert (ds + [d])[..|ds|] == ds;
  }

  lemma SumIfSnoc(ds: seq<Deal>, d: Deal, f: Filter, c: Column)
    ensures SumIf(ds + [d], f, c) == SumIf(ds, f, c) + if Keeps(f, d) then Booked(d, c) else 0.0
  {
    assert (ds + [d])[..|ds|] == ds;
  }

  lemma SumWhereSnoc(ds: seq<Deal>, d: Deal, f: Filter, c: Column)
    requires Sum(Where(ds, f), c) == SumIf(ds, f, c)
    ensures Sum(Where(ds + [d], f), c) == SumIf(ds + [d], f, c)
  {
    WhereSnoc(ds, d, f);
    SumIfSnoc(ds, d, f, c);
    SumSnoc(Where(ds, f), d, c);
  }

  lemma {:induction false} SumWhere(ds: seq<Deal>, f: Filter, c: Column)
    ensures Sum(Where(ds, f), c) == SumIf(ds, f, c)
    decreases |ds|
  {
    if ds != [] {
      var n := |ds| - 1;
      SumWhere(ds[..n], f, c);
      SumWhereSnoc(ds[..n], ds[n], f, c);
      assert ds == ds[..n] + [ds[n]];
    }
  }

  lemma {:induction false} SumIfInsert(d: Deal, ds: seq<Deal>, f: Filter, c: Column)
    ensures SumIf(Insert(d, ds), f, c) == SumIf(ds, f, c) + if Keeps(f, d) then Booked(d, c) else 0.0
    decreases |ds|
  {
    if ds == [] || ds[|ds| - 1].time <= d.time {
      SumIfSnoc(ds, d, f, c);
    } else {
      var n := |ds| - 1;
      SumIfInsert(d, ds[..n], f, c);
      SumIfSnoc(Insert(d, ds[..n]), ds[n], f, c);
    }
  }

  /** Sorting does not change what is summed. */
  lemma {:induction false} SumIfByTime(ds: seq<Deal>, f: Filter, c: Column)
    ensures SumIf(ByTime(ds), f, c) == SumIf(ds, f, c)
    decreases |ds|
  {
    if ds != [] {
      var n := |ds| - 1;
      SumIfByTime(ds[..n], f, c);
      SumIfInsert(ds[n], ByTime(ds[..n]), f, c);
    }
  }

  lemma {:induction false} SumIfSplit(ds: seq<Deal>, clamp: int, c: Column)
    ensures SumIf(ds, After(Some(clamp)), c) + SumIf(ds, Until(clamp), c) == Sum(ds, c)
    ensures SumIf(ds, After(None), c) == Sum(ds, c)
    decreases |ds|
  {
    if ds != [] { SumIfSplit(ds[..|ds| - 1], clamp, c); }
  }

  /** What a group had booked at or before the clamp. */
  function Earlier(group: seq<Deal>, clamp: int, c: Column): real {
    Sum(Where(group, Until(clamp)), c)
  }

  /** What a position books of its group, with a clamp and without. */
  lemma Owned(group: seq<Deal>, clamp: int, c: Column)
    ensures Sum(Where(ByTime(group), After(Some(clamp))), c) + Earlier(group, clamp, c) == Sum(group, c)
    ensures Sum(Where(ByTime(group), After(None)), c) == Sum(group, c)
  {
    SumWhere(ByTime(group), After(None), c);
    SumIfByTime(group, After(None), c);
    SumWhere(ByTime(group), After(Some(clamp)), c);
    SumIfByTime(group, After(Some(clamp)), c);
    SumWhere(group, Until(clamp), c);
    SumIfSplit(group, clamp, c);
  }

  function Of(p: Position, c: Column): real {
    match c
    case Profit => p.gross
    case Commission => p.commission
    case Swap => p.swap
  }

  /** A position rebuilt both with and without the clamp: the money before the clamp is all that is missing. */
  predicate ClampSplits(u: Position, p: Position, group: seq<Deal>, clamp: int) {
    && p == u.(gross := p.gross, commission := p.commission, swap := p.swap)
    && p.gross + Earlier(group, clamp, Profit) == u.gross
    && p.commission + Earlier(group, clamp, Commission) == u.commission
    && p.swap + Earlier(group, clamp, Swap) == u.swap
  }

  /** The clamp enters a rebuilt position only through its money. */
  lemma RebuiltMoney(id: string, group: seq<Deal>, isOpen: bool, clamp: Option<int>, c: Column)
    ensures Rebuild(id, group, isOpen, clamp).Some? ==>
      Of(Rebuild(id, group, isOpen, clamp).value, c) == Sum(Where(ByTime(group), After(clamp)), c)
  {
  }

  lemma RebuiltRest(id: string, group: seq<Deal>, isOpen: bool, clamp: int)
    requires Rebuild(id, group, isOpen, Some(clamp)).Some?
    ensures Rebuild(id, group, isOpen, None).Some?
    ensures var u, p := Rebuild(id, group, isOpen, None).value, Rebuild(id, group, isOpen, Some(clamp)).value;
      p == u.(gross := p.gross, commission := p.commission, swap := p.swap)
  {
  }

  lemma RebuildClamped(id: string, group: seq<Deal>, isOpen: bool, clamp: int)
    requires Rebuild(id, group, isOpen, Some(clamp)).Some?
    ensures Rebuild(id, group, isOpen, None).Some?
    ensures ClampSplits(Rebuild(id, group, isOpen, None).value, Rebuild(id, group, isOpen, Some(clamp)).value, group,
        clamp)
  {
    RebuiltRest(id, group, isOpen, clamp);
    forall c: Column
      ensures Of(Rebuild(id, group, isOpen, Some(clamp)).value, c) + Earlier(group, clamp, c) ==
          Of(Rebuild(id, group, isOpen, None).value, c)
    {
      RebuiltMoney(id, group, isOpen, None, c);
      RebuiltMoney(id, group, isOpen, Some(clamp), c);
      Owned(group, clamp, c);
    }
    ColumnsSplit(Rebuild(id, group, isOpen, None).value, Rebuild(id, group, isOpen, Some(clamp)).value, group, clamp);
  }

  lemma ColumnsSplit(u: Position, p: Position, group: seq<Deal>, clamp: int)
    requires p == u.(gross := p.gross, commission := p.commission, swap := p.swap)
    requires forall c: Column :: Of(p, c) + Earlier(group, clamp, c) == Of(u, c)
    ensures ClampSplits(u, p, group, clamp)
  {
    assert Of(p, Profit) + Earlier(group, clamp, Profit) == Of(u, Profit);
    assert Of(p, Commission) + Earlier(group, clamp, Commission) == Of(u, Commission);
    assert Of(p, Swap) + Earlier(group, clamp, Swap) == Of(u, Swap);
  }

  lemma ClosingMembers(group: seq<Deal>, d: Deal)
    ensures d in Where(ByTime(group), Closing) <==> d in group && d.entry == Out
  {
    ByTimeMembers(group);
    WhereExactly(ByTime(group), Closing);
  }

  lemma ClosingInOrder(group: seq<Deal>)
    ensures Chronological(Where(ByTime(group), Closing))
  {
    ByTimeSorted(group);
    WhereChronological(ByTime(group), Closing);
  }

  /** The closing deals of a group, in time order. */
  lemma ClosingDeals(group: seq<Deal>)
    ensures Chronological(Where(ByTime(group), Closing))
    ensures forall d :: d in Where(ByTime(group), Closing) <==> d in group && d.entry == Out
  {
    ClosingInOrder(group);
    forall d ensures d in Where(ByTime(group), Closing) <==> d in group && d.entry == Out { ClosingMembers(group, d); }
  }

  /** The closing date is that of the last closing deal. */
  lemma ExitIsLastClose(group: seq<Deal>, isOpen: bool)
    ensures ExitDate(ByTime(group), isOpen).None? <==> isOpen || forall d :: d in group ==> d.entry != Out
    ensures ExitDate(ByTime(group), isOpen).Some? ==>
      var exit := ExitDate(ByTime(group), isOpen).value;
      && (exists d :: d in group && d.entry == Out && d.time == exit)
      && (forall d :: d in group && d.entry == Out ==> d.time <= exit)
  {
    ClosingDeals(group);
    LastIsLatest(Where(ByTime(group), Closing));
  }

  lemma LastIsLatest(ds: seq<Deal>)
    requires Chronological(ds)
    ensures ds != [] ==> ds[|ds| - 1] in ds && forall d :: d in ds ==> d.time <= ds[|ds| - 1].time
  {
    forall d | d in ds ensures d.time <= ds[|ds| - 1].time {
      var i :| 0 <= i < |ds| && ds[i] == d;
    }
  }

  lemma {:induction false} OpeningIsEarliest(sorted: seq<Deal>)
    requires Chronological(sorted)
    ensures Opening(sorted).None? <==> forall d :: d in sorted ==> d.entry != In
    ensures Opening(sorted).Some? ==>
      var o := Opening(sorted).value;
      o in sorted && o.entry == In && forall d :: d in sorted && d.entry == In ==> o.time <= d.time
    decreases |sorted|
  {
    if sorted != [] {
      assert sorted == [sorted[0]] + sorted[1..];
      OpeningIsEarliest(sorted[1..]);
      forall d | d in sorted ensures sorted[0].time <= d.time {
        var i :| 0 <= i < |sorted| && sorted[i] == d;
      }
    }
  }

  /** An opening deal that describes the position: none of its group opened earlier. */
  predicate Opens(o: Deal, group: seq<Deal>, p: Position) {
    && o in group && o.entry == In && (forall d :: d in group && d.entry == In ==> o.time <= d.time)
    && p.symbol == o.symbol && Some(p.quantity) == o.volume && p.entryDate == o.time
    && (p.side == "BUY" <==> o.kind == Buy)
  }

  /** A rebuilt position is described by an earliest opening deal, and without a clamp books every deal of its group. */
  lemma DescribedByItsDeals(id: string, group: seq<Deal>, isOpen: bool, clamp: Option<int>)
    requires Rebuild(id, group, isOpen, clamp).Some?
    ensures exists o :: Opens(o, group, Rebuild(id, group, isOpen, clamp).value)
    ensures clamp.None? ==> forall c: Column :: Of(Rebuild(id, group, isOpen, clamp).value, c) == Sum(group, c)
  {
    ByTimeSorted(group);
    ByTimeMembers(group);
    OpeningIsEarliest(ByTime(group));
    assert Opens(Opening(ByTime(group)).value, group, Rebuild(id, group, isOpen, clamp).value);
    forall c: Column | clamp.None? ensures Of(Rebuild(id, group, isOpen, clamp).value, c) == Sum(group, c) {
      RebuiltMoney(id, group, isOpen, clamp, c);
      Owned(group, 0, c);
    }
  }

  /** No closing deal is later than the clamp. */
  predicate ClosedBy(group: seq<Deal>, clamp: int) {
    forall d :: d in group && d.entry == Out ==> d.time <= clamp
  }

  /** The clamp drops exactly the closed positions with no closing deal after it. */
  lemma DroppedExactly(id: string, group: seq<Deal>, isOpen: bool, clamp: int)
    requires Rebuild(id, group, isOpen, None).Some?
    ensures Rebuild(id, group, isOpen, Some(clamp)).None? <==>
              Rebuild(id, group, isOpen, None).value.exitDate.Some? && ClosedBy(group, clamp)
  {
    ExitIsLastClose(group, isOpen);
  }

  /**
   * Over a whole history: every clamped position is an unclamped one less the money of its deals at or
   * before the clamp, and an unclamped one is missing exactly when it is closed with no closing deal after.
   */
  lemma ClampConserves(deals: seq<Deal>, open: set<string>, clamp: int)
    ensures forall c :: c in Aggregate(deals, open, Some(clamp)) ==>
      exists u :: u in Aggregate(deals, open, None) && ClampSplits(u, c, Group(deals, c.positionId), clamp)
    ensures forall u :: u in Aggregate(deals, open, None) ==>
      ((forall c :: c in Aggregate(deals, open, Some(clamp)) ==> c.positionId != u.positionId) <==>
        u.exitDate.Some? && ClosedBy(Group(deals, u.positionId), clamp))
  {
    forall c | c in Aggregate(deals, open, Some(clamp))
      ensures exists u :: u in Aggregate(deals, open, None) && ClampSplits(u, c, Group(deals, c.positionId), clamp)
    {
      var group := Group(deals, c.positionId);
      Reported(deals, open, Some(clamp), c);
      RebuildClamped(c.positionId, group, c.positionId in open, clamp);
      Reported(deals, open, None, Rebuild(c.positionId, group, c.positionId in open, None).value);
    }
    forall u | u in Aggregate(deals, open, None)
      ensures (forall c :: c in Aggregate(deals, open, Some(clamp)) ==> c.positionId != u.positionId) <==>
        u.exitDate.Some? && ClosedBy(Group(deals, u.positionId), clamp)
    {
      Reported(deals, open, None, u);
      DroppedExactly(u.positionId, Group(deals, u.positionId), u.positionId in open, clamp);
      MissingMeansNone(deals, open, Some(clamp), u.positionId);
    }
  }

  lemma MissingMeansNone(deals: seq<Deal>, open: set<string>, clamp: Option<int>, id: string)
    requires id in Ids(deals)
    ensures (forall c :: c in Aggregate(deals, open, clamp) ==> c.positionId != id) <==>
              Rebuild(id, Group(deals, id), id in open, clamp).None?
  {
    var r := Rebuild(id, Group(deals, id), id in open, clamp);
    if r.Some? { Reported(deals, open, clamp, r.value); }
    forall c | c in Aggregate(deals, open, clamp) && c.positionId == id ensures r == Some(c) {
      Reported(deals, open, clamp, c);
    }
  }

  // ---- straight from the deals ----

  /** A deal of the position: anything but a balance operation. */
  predicate Belongs(d: Deal, id: string) {
    d.kind != Balance && d.positionId == id
  }

  /** The earliest opening deal of the position; among equals the first listed. */
  function EarliestOpening(deals: seq<Deal>, id: string): Option<Deal>
    decreases |deals|
  {
    if deals == [] then None
    else
      var d := deals[|deals| - 1];
      var r := EarliestOpening(deals[..|deals| - 1], id);
      if Belongs(d, id) && d.entry == In && (r.None? || d.time < r.value.time) then Some(d) else r
  }

  /** The time of its latest closing deal. */
  function LatestClose(deals: seq<Deal>, id: string): Option<int>
    decreases |deals|
  {
    if deals == [] then None
    else
      var d := deals[|deals| - 1];
      var r := LatestClose(deals[..|deals| - 1], id);
      if Belongs(d, id) && d.entry == Out && (r.None? || d.time > r.value) then Some(d.time) else r
  }

  /** What it booked after the clamp. */
  function BookedAfter(deals: seq<Deal>, id: string, clamp: Option<int>, c: Column): real
    decreases |deals|
  {
    if deals == [] then 0.0
    else
      var d := deals[|deals| - 1];
      var x := match c case Profit => d.profit case Commission => d.commission case Swap => d.swap;
      BookedAfter(deals[..|deals| - 1], id, clamp, c)
      + if Belongs(d, id) && (clamp.None? || clamp.value < d.time) && x.Some? then x.value else 0.0
  }

  /** What is reported of a position. */
  function Report(deals: seq<Deal>, open: set<string>, clamp: Option<int>, id: string): Option<Position> {
    var opening := EarliestOpening(deals, id);
    var exitDate := if id in open then None else LatestClose(deals, id);
    if opening.None? || opening.value.symbol == "" || opening.value.volume.None? then None
    else if clamp.Some? && exitDate.Some? && exitDate.value <= clamp.value then None
    else
      var o := opening.value;
      Some(Position(id, o.symbol, if o.kind == Buy then "BUY" else "SELL", o.volume.value, o.time, exitDate,
                    BookedAfter(deals, id, clamp, Profit), BookedAfter(deals, id, clamp, Commission),
                    BookedAfter(deals, id, clamp, Swap)))
  }

  lemma GroupSnoc(deals: seq<Deal>, d: Deal, id: string)
    requires id != ""
    ensures Group(deals + [d], id) == if Belongs(d, id) then Group(deals, id) + [d] else Group(deals, id)
  {
    WhereSnoc(deals, d, Trades);
    if Keeps(Trades, d) { Grouping.Extend(Where(deals, Trades), PositionId, d); }
    assert Group(deals, id) + [] == Group(deals, id);
  }

  lemma {:induction false} GroupMembers(deals: seq<Deal>, id: string)
    requires id != ""
    ensures forall d :: d in Group(deals, id) <==> d in deals && Belongs(d, id)
    decreases |deals|
  {
    if deals != [] {
      var n := |deals| - 1;
      GroupMembers(deals[..n], id);
      GroupSnoc(deals[..n], deals[n], id);
      assert deals == deals[..n] + [deals[n]];
    }
  }

  lemma {:induction false} OpeningSnoc(ds: seq<Deal>, d: Deal)
    ensures Opening(ds + [d]) ==
              if Opening(ds).Some? then Opening(ds) else if d.entry == In then Some(d) else None
    decreases |ds|
  {
    if ds != [] {
      assert (ds + [d])[1..] == ds[1..] + [d];
      OpeningSnoc(ds[1..], d);
    }
  }

  /** Inserting a deal in time order changes the opening only if it opens earlier. */
  lemma {:induction false} OpeningInsert(d: Deal, ds: seq<Deal>)
    requires Chronological(ds)
    ensures Opening(Insert(d, ds)) ==
              if d.entry == In && (Opening(ds).None? || d.time < Opening(ds).value.time) then Some(d) else Opening(ds)
    decreases |ds|
  {
    if ds == [] || ds[|ds| - 1].time <= d.time {
      OpeningSnoc(ds, d);
      OpeningIsEarliest(ds);
      if Opening(ds).Some? {
        var i :| 0 <= i < |ds| && ds[i] == Opening(ds).value;
      }
    } else {
      var n := |ds| - 1;
      OpeningInsert(d, ds[..n]);
      OpeningSnoc(Insert(d, ds[..n]), ds[n]);
      OpeningSnoc(ds[..n], ds[n]);
      assert ds == ds[..n] + [ds[n]];
    }
  }

  lemma ByTimeSnoc(ds: seq<Deal>, d: Deal)
    ensures ByTime(ds + [d]) == Insert(d, ByTime(ds))
  {
    assert (ds + [d])[..|ds|] == ds;
  }

  lemma OpeningNext(deals: seq<Deal>, d: Deal, id: string)
    requires id != "" && Opening(ByTime(Group(deals, id))) == EarliestOpening(deals, id)
    ensures Opening(ByTime(Group(deals + [d], id))) == EarliestOpening(deals + [d], id)
  {
    assert (deals + [d])[..|deals|] == deals;
    GroupSnoc(deals, d, id);
    ByTimeSnoc(Group(deals, id), d);
    ByTimeSorted(Group(deals, id));
    OpeningInsert(d, ByTime(Group(deals, id)));
  }

  lemma {:induction false} OpeningOfGroup(deals: seq<Deal>, id: string)
    requires id != ""
    ensures Opening(ByTime(Group(deals, id))) == EarliestOpening(deals, id)
    decreases |deals|
  {
    if deals != [] {
      var n := |deals| - 1;
      OpeningOfGroup(deals[..n], id);
      OpeningNext(deals[..n], deals[n], id);
      assert deals == deals[..n] + [deals[n]];
    }
  }

  lemma {:induction false} LatestIsMax(deals: seq<Deal>, id: string)
    ensures LatestClose(deals, id).None? <==> forall d :: d in deals && Belongs(d, id) ==> d.entry != Out
    ensures LatestClose(deals, id).Some? ==>
      var exit := LatestClose(deals, id).value;
      && (exists d :: d in deals && Belongs(d, id) && d.entry == Out && d.time == exit)
      && (forall d :: d in deals && Belongs(d, id) && d.entry == Out ==> d.time <= exit)
    decreases |deals|
  {
    if deals != [] {
      var n := |deals| - 1;
      LatestIsMax(deals[..n], id);
      assert deals == deals[..n] + [deals[n]];
    }
  }

  /** The latest closing time of a group, if it has one. */
  ghost predicate Latest(group: seq<Deal>, exit: Option<int>) {
    match exit
    case None => forall d :: d in group ==> d.entry != Out
    case Some(t) =>
      && (exists d :: d in group && d.entry == Out && d.time == t)
      && (forall d :: d in group && d.entry == Out ==> d.time <= t)
  }

  lemma LatestIsUnique(group: seq<Deal>, x: Option<int>, y: Option<int>)
    requires Latest(group, x) && Latest(group, y)
    ensures x == y
  {
    if x.Some? && y.Some? {
      var d :| d in group && d.entry == Out && d.time == x.value;
      var e :| e in group && e.entry == Out && e.time == y.value;
      assert d.time <= y.value && e.time <= x.value;
    }
  }

  lemma LatestOfGroup(deals: seq<Deal>, id: string)
    requires id != ""
    ensures Latest(Group(deals, id), LatestClose(deals, id))
  {
    var group, exit := Group(deals, id), LatestClose(deals, id);
    GroupMembers(deals, id);
    LatestIsMax(deals, id);
    if exit.Some? {
      var d :| d in deals && Belongs(d, id) && d.entry == Out && d.time == exit.value;
      assert d in group;
    }
  }

  lemma ExitOfGroup(deals: seq<Deal>, isOpen: bool, id: string)
    requires id != ""
    ensures ExitDate(ByTime(Group(deals, id)), isOpen) == if isOpen then None else LatestClose(deals, id)
  {
    if !isOpen {
      var group := Group(deals, id);
      LatestOfGroup(deals, id);
      ExitIsLastClose(group, isOpen);
      assert Latest(group, ExitDate(ByTime(group), isOpen));
      LatestIsUnique(group, ExitDate(ByTime(group), isOpen), LatestClose(deals, id));
    }
  }

  lemma SumNext(deals: seq<Deal>, d: Deal, id: string, clamp: Option<int>, c: Column)
    requires id != "" && SumIf(Group(deals, id), After(clamp), c) == BookedAfter(deals, id, clamp, c)
    ensures SumIf(Group(deals + [d], id), After(clamp), c) == BookedAfter(deals + [d], id, clamp, c)
  {
    assert (deals + [d])[..|deals|] == deals;
    GroupSnoc(deals, d, id);
    SumIfSnoc(Group(deals, id), d, After(clamp), c);
  }

  lemma {:induction false} SumOfGroup(deals: seq<Deal>, id: string, clamp: Option<int>, c: Column)
    requires id != ""
    ensures SumIf(Group(deals, id), After(clamp), c) == BookedAfter(deals, id, clamp, c)
    decreases |deals|
  {
    if deals != [] {
      var n := |deals| - 1;
      SumOfGroup(deals[..n], id, clamp, c);
      SumNext(deals[..n], deals[n], id, clamp, c);
      assert deals == deals[..n] + [deals[n]];
    }
  }

  lemma OwnedOfGroup(deals: seq<Deal>, id: string, clamp: Option<int>, c: Column)
    requires id != ""
    ensures Sum(Where(ByTime(Group(deals, id)), After(clamp)), c) == BookedAfter(deals, id, clamp, c)
  {
    SumWhere(ByTime(Group(deals, id)), After(clamp), c);
    SumIfByTime(Group(deals, id), After(clamp), c);
    SumOfGroup(deals, id, clamp, c);
  }

  lemma RebuildIsReport(deals: seq<Deal>, open: set<string>, clamp: Option<int>, id: string)
    requires id != ""
    ensures Rebuild(id, Group(deals, id), id in open, clamp) == Report(deals, open, clamp, id)
  {
    OpeningOfGroup(deals, id);
    ExitOfGroup(deals, id in open, id);
    OwnedOfGroup(deals, id, clamp, Profit);
    OwnedOfGroup(deals, id, clamp, Commission);
    OwnedOfGroup(deals, id, clamp, Swap);
  }

  /**
   * Straight from the deals, whatever their order: a position is reported exactly when its earliest opening deal
   * has a symbol and a volume and the clamp does not close it; with the time of its latest closing deal, and the
   * sum over all its deals after the clamp that are no balance operations.
   */
  lemma ReportedExactly(deals: seq<Deal>, open: set<string>, clamp: Option<int>, p: Position)
    ensures p in Aggregate(deals, open, clamp) <==>
              p.positionId != "" && Report(deals, open, clamp, p.positionId) == Some(p)
  {
    var id := p.positionId;
    Reported(deals, open, clamp, p);
    WhereExactly(deals, Trades);
    if id != "" {
      RebuildIsReport(deals, open, clamp, id);
      if Report(deals, open, clamp, id).Some? {
        GroupMembers(deals, id);
        OpeningOfGroup(deals, id);
        ByTimeMembers(Group(deals, id));
        ByTimeSorted(Group(deals, id));
        OpeningIsEarliest(ByTime(Group(deals, id)));
        assert EarliestOpening(deals, id).value in Where(deals, Trades);
      }
    }
  }
}
