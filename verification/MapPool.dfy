/**
 * The order-preserving concurrent map: a few lanes share one counter, each claiming the next index and
 * awaiting its call before it claims again.
 */
module MapPool {
  import opened Common

  /** A lane awaits the call of one index, has found nothing left to claim, or was ended by a rejected call. */
  datatype Lane = Awaiting(i: nat) | Finished | Rejected(i: nat)

  /** `claims` lists the indices handed to the mapped function, in order. */
  datatype State<R> = State(next: nat, lanes: seq<Lane>, out: seq<Option<R>>, claims: seq<nat>)

  function LaneCount(limit: int, n: nat): nat {
    if limit < 0 then 0 else if limit < n then limit else n
  }

  /** All lanes run up to their first await at once, in order. */
  function Start<R>(n: nat, limit: int): State<R> {
    var k := LaneCount(limit, n);
    State(k, seq(k, i requires 0 <= i < k => Awaiting(i)), seq(n, i => None), seq(k, i requires 0 <= i < k => i))
  }

  datatype Event = Resolve(lane: nat) | Reject(lane: nat)

  predicate Enabled<R>(s: State<R>, e: Event) {
    e.lane < |s.lanes| && s.lanes[e.lane].Awaiting? && s.lanes[e.lane].i < |s.out|
  }

  /** A resolved call is stored, and its lane claims again before anything else runs. */
  function Step<T, R>(items: seq<T>, fn: T -> R, s: State<R>, e: Event): State<R> {
    if !Enabled(s, e) || |s.out| != |items| then s
    else
      var i := s.lanes[e.lane].i;
      match e
      case Reject(l) => s.(lanes := s.lanes[l := Rejected(i)])
      case Resolve(l) =>
        var out := s.out[i := Some(fn(items[i]))];
        if s.next >= |items| then State(s.next + 1, s.lanes[l := Finished], out, s.claims)
        else State(s.next + 1, s.lanes[l := Awaiting(s.next)], out, s.claims + [s.next])
  }

  function Run<T, R>(items: seq<T>, fn: T -> R, s: State<R>, es: seq<Event>): State<R>
    decreases |es|
  {
    if es == [] then s else Run(items, fn, Step(items, fn, s, es[0]), es[1..])
  }

  predicate Holds(l: Lane, i: nat) {
    (l.Awaiting? || l.Rejected?) && l.i == i
  }

  function Least(a: nat, b: nat): nat { if a < b then a else b }

  /** Who answers for index `i`: nobody yet, exactly one lane, or the stored result. */
  ghost predicate Accounted<T, R>(items: seq<T>, fn: T -> R, s: State<R>, i: nat)
    requires i < |items| == |s.out|
  {
    && (i >= s.next ==> s.out[i] == None)
    && (s.out[i].Some? ==> s.out[i] == Some(fn(items[i])) && forall l :: 0 <= l < |s.lanes| ==> !Holds(s.lanes[l], i))
    && (i < s.next && s.out[i].None? ==> exists l :: 0 <= l < |s.lanes| && Holds(s.lanes[l], i))
  }

  ghost predicate Inv<T, R>(items: seq<T>, fn: T -> R, limit: int, s: State<R>) {
    && |s.out| == |items| && |s.lanes| == LaneCount(limit, |items|) <= s.next
    && s.claims == seq(Least(s.next, |items|), i => i)
    && (forall l :: 0 <= l < |s.lanes| && !s.lanes[l].Finished? ==> s.lanes[l].i < Least(s.next, |items|))
    && (forall l, m :: 0 <= l < m < |s.lanes| && !s.lanes[l].Finished? && !s.lanes[m].Finished? ==>
        s.lanes[l].i != s.lanes[m].i)
    && (forall l :: 0 <= l < |s.lanes| && s.lanes[l].Finished? ==> s.next > |items|)
    && (forall i :: 0 <= i < |items| ==> Accounted(items, fn, s, i))
  }

  lemma StartInv<T, R>(items: seq<T>, fn: T -> R, limit: int)
    ensures Inv(items, fn, limit, Start(|items|, limit))
  {
    var s := Start<R>(|items|, limit);
    forall i | 0 <= i < |items| ensures Accounted(items, fn, s, i) {
      if i < s.next { assert Holds(s.lanes[i], i); }
    }
  }

  lemma ResolveAccounted<T, R>(items: seq<T>, fn: T -> R, limit: int, s: State<R>, e: Event, i: nat)
    requires Inv(items, fn, limit, s) && Enabled(s, e) && i < |items|
    ensures Accounted(items, fn, Step(items, fn, s, e), i)
  {
    var t := Step(items, fn, s, e);
    assert Accounted(items, fn, s, i);
    if i < s.next && s.out[i].None? {
      var l :| 0 <= l < |s.lanes| && Holds(s.lanes[l], i);
      if l != e.lane || e.Reject? { assert Holds(t.lanes[l], i); }
    } else if i == s.next && e.Resolve? {
      assert Holds(t.lanes[e.lane], i);
    }
  }

  lemma StepKeeps<T, R>(items: seq<T>, fn: T -> R, limit: int, s: State<R>, e: Event)
    requires Inv(items, fn, limit, s)
    ensures Inv(items, fn, limit, Step(items, fn, s, e))
  {
    if Enabled(s, e) {
      forall i | 0 <= i < |items| ensures Accounted(items, fn, Step(items, fn, s, e), i) {
        ResolveAccounted(items, fn, limit, s, e, i);
      }
    }
  }

  lemma {:induction false} RunKeeps<T, R>(items: seq<T>, fn: T -> R, limit: int, s: State<R>, es: seq<Event>)
    requires Inv(items, fn, limit, s)
    ensures Inv(items, fn, limit, Run(items, fn, s, es))
    decreases |es|
  {
    if es != [] {
      StepKeeps(items, fn, limit, s, es[0]);
      RunKeeps(items, fn, limit, Step(items, fn, s, es[0]), es[1..]);
    }
  }

  /** The promise of all lanes has resolved. */
  predicate Succeeded<R>(s: State<R>) {
    forall l :: 0 <= l < |s.lanes| ==> s.lanes[l].Finished?
  }

  /** Under every interleaving the calls are made in index order, each index once. */
  lemma ClaimedOnceInOrder<T, R>(items: seq<T>, fn: T -> R, limit: int, es: seq<Event>)
    ensures var s := Run(items, fn, Start(|items|, limit), es);
      |s.claims| <= |items| && forall i :: 0 <= i < |s.claims| ==> s.claims[i] == i
  {
    StartInv(items, fn, limit);
    RunKeeps(items, fn, limit, Start(|items|, limit), es);
  }

  /** The indices whose call has been made and has not returned. */
  function Outstanding<R>(s: State<R>): set<nat> {
    set l | 0 <= l < |s.lanes| && s.lanes[l].Awaiting? :: s.lanes[l].i
  }

  lemma {:induction false} AwaitingBound(lanes: seq<Lane>)
    ensures |set l | 0 <= l < |lanes| && lanes[l].Awaiting? :: lanes[l].i| <= |lanes|
    decreases |lanes|
  {
    if lanes != [] {
      var n := |lanes| - 1;
      AwaitingBound(lanes[..n]);
      var before := set l | 0 <= l < n && lanes[..n][l].Awaiting? :: lanes[..n][l].i;
      var all := set l | 0 <= l < |lanes| && lanes[l].Awaiting? :: lanes[l].i;
      assert all == if lanes[n].Awaiting? then before + {lanes[n].i} else before by {
        forall x | x in before ensures x in all {
          var l :| 0 <= l < n && lanes[..n][l].Awaiting? && lanes[..n][l].i == x;
          assert lanes[l].i == x;
        }
        forall x | x in all ensures x in before || (lanes[n].Awaiting? && x == lanes[n].i) {
          var l :| 0 <= l < |lanes| && lanes[l].Awaiting? && lanes[l].i == x;
          if l < n { assert lanes[..n][l].i == x; }
        }
      }
    }
  }

  /** Never more than `limit` calls are outstanding, and an index is outstanding exactly until its result is stored. */
  lemma AtMostLimit<T, R>(items: seq<T>, fn: T -> R, limit: int, es: seq<Event>)
    requires limit >= 0
    ensures var s := Run(items, fn, Start(|items|, limit), es);
      |Outstanding(s)| <= limit && forall i :: i in Outstanding(s) ==> i < |s.out| && s.out[i].None? && i in s.claims
  {
    StartInv(items, fn, limit);
    RunKeeps(items, fn, limit, Start(|items|, limit), es);
    var s := Run(items, fn, Start(|items|, limit), es);
    AwaitingBound(s.lanes);
    forall i | i in Outstanding(s) ensures i < |s.out| && s.out[i].None? && i in s.claims {
      var l :| 0 <= l < |s.lanes| && s.lanes[l].Awaiting? && s.lanes[l].i == i;
      assert Accounted(items, fn, s, i) && Holds(s.lanes[l], i);
      assert s.claims[i] == i;
    }
  }

  function Mapped<T, R>(items: seq<T>, fn: T -> R): seq<Option<R>> {
    seq(|items|, i requires 0 <= i < |items| => Some(fn(items[i])))
  }

  /**
   * When the map resolves, the output holds every item's result at that item's index; with no lane at all
   * it resolves at once with holes, so this needs a positive limit or no items.
   */
  lemma ResultsExactly<T, R>(items: seq<T>, fn: T -> R, limit: int, es: seq<Event>)
    requires Succeeded(Run(items, fn, Start(|items|, limit), es))
    ensures Run(items, fn, Start(|items|, limit), es).out == Mapped(items, fn) <==> limit > 0 || items == []
  {
    StartInv(items, fn, limit);
    RunKeeps(items, fn, limit, Start(|items|, limit), es);
    var s := Run(items, fn, Start(|items|, limit), es);
    if limit > 0 && items != [] {
      assert s.lanes[0].Finished?;
      forall i | 0 <= i < |items| ensures s.out[i] == Some(fn(items[i])) {
        assert Accounted(items, fn, s, i);
      }
    } else if items != [] {
      NoLanes(items, fn, Start(|items|, limit), es);
      assert s.out[0] == None && Mapped(items, fn)[0].Some?;
    }
  }

  lemma {:induction false} NoLanes<T, R>(items: seq<T>, fn: T -> R, s: State<R>, es: seq<Event>)
    requires s.lanes == []
    ensures Run(items, fn, s, es) == s
    decreases |es|
  {
    if es != [] { NoLanes(items, fn, s, es[1..]); }
  }

  /** Until every result is stored, or a call is rejected, some call is outstanding: the map cannot stall. */
  lemma NeverStalls<T, R>(items: seq<T>, fn: T -> R, limit: int, es: seq<Event>, i: nat)
    requires limit > 0 && i < |items|
    requires var s := Run(items, fn, Start(|items|, limit), es);
      && |s.out| == |items| && s.out[i].None?
      && forall l :: 0 <= l < |s.lanes| ==> !s.lanes[l].Rejected?
    ensures Outstanding(Run(items, fn, Start(|items|, limit), es)) != {}
  {
    StartInv(items, fn, limit);
    RunKeeps(items, fn, limit, Start(|items|, limit), es);
    var s := Run(items, fn, Start(|items|, limit), es);
    assert Accounted(items, fn, s, i);
    if i < s.next {
      var l :| 0 <= l < |s.lanes| && Holds(s.lanes[l], i);
      assert s.lanes[l].i in Outstanding(s);
    } else {
      assert !s.lanes[0].Finished?;
      assert s.lanes[0].i in Outstanding(s);
    }
  }

  class WorkerPool<T, R> {
    const items: seq<T>
    const fn: T -> R
    const limit: int
    const out: array<Option<R>>
    var next: nat
    var lanes: seq<Lane>
    ghost var claims: seq<nat>

    ghost function View(): State<R>
      reads this, out
    {
      State(next, lanes, out[..], claims)
    }

    ghost predicate Valid()
      reads this, out
    {
      Inv(items, fn, limit, View())
    }

    constructor (items: seq<T>, fn: T -> R, limit: int)
      ensures Valid() && fresh(out) && this.items == items && this.fn == fn && this.limit == limit
      ensures View() == Start(|items|, limit)
    {
      this.items, this.fn, this.limit := items, fn, limit;
      out := new Option<R>[|items|](_ => None);
      var k := LaneCount(limit, |items|);
      next := k;
      lanes := seq(k, i requires 0 <= i < k => Awaiting(i));
      claims := seq(k, i requires 0 <= i < k => i);
      new;
      StartInv(items, fn, limit);
      assert out[..] == Start<R>(|items|, limit).out;
    }

    /** The lane's call has returned. */
    method Resolved(lane: nat)
      requires Valid() && Enabled(View(), Resolve(lane))
      modifies this`next, this`lanes, this`claims, out
      ensures View() == Step(items, fn, old(View()), Resolve(lane))
      ensures Valid()
    {
      StepKeeps(items, fn, limit, View(), Resolve(lane));
      ghost var before := out[..];
      var i := lanes[lane].i;
      out[i] := Some(fn(items[i]));
      assert out[..] == before[i := Some(fn(items[i]))];
      if next >= |items| {
        lanes := lanes[lane := Finished];
      } else {
        claims := claims + [next];
        lanes := lanes[lane := Awaiting(next)];
      }
      next := next + 1;
    }

    /** The lane's call has thrown: the lane ends, and the others go on. */
    method Threw(lane: nat)
      requires Valid() && Enabled(View(), Reject(lane))
      modifies this`lanes
      ensures View() == Step(items, fn, old(View()), Reject(lane))
      ensures Valid()
    {
      StepKeeps(items, fn, limit, View(), Reject(lane));
      lanes := lanes[lane := Rejected(lanes[lane].i)];
    }
  }
}
