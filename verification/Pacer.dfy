/**
 * The REST pacer: callers queue on one promise chain, each sleeping until the minimum interval since the
 * last permit has passed. Time is a monotone clock; a timer fires at or after the time asked for.
 */
module Pacer {
  const REST_MIN_INTERVAL_MS: int := 2200

  /** The task at the head of the chain. */
  datatype Head = Ready | Sleeping(until: int)

  /** `arrivals[i]` and `permits[i]` are the times caller i called and was let through. */
  datatype State = State(now: int, last: int, head: Head, arrivals: seq<int>, permits: seq<int>)

  datatype Event = Elapse(to: int) | Call | Begin | Fire

  predicate Enabled(s: State, e: Event) {
    match e
    case Elapse(t) => t >= s.now
    case Call => true
    case Begin => s.head.Ready? && |s.permits| < |s.arrivals|
    case Fire => s.head.Sleeping? && s.now >= s.head.until
  }

  function Permit(s: State): State {
    s.(head := Ready, last := s.now, permits := s.permits + [s.now])
  }

  function Step(interval: int, s: State, e: Event): State {
    if !Enabled(s, e) then s
    else match e
      case Elapse(t) => s.(now := t)
      case Call => s.(arrivals := s.arrivals + [s.now])
      case Begin =>
        var wait := s.last + interval - s.now;
        if wait > 0 then s.(head := Sleeping(s.now + wait)) else Permit(s)
      case Fire => Permit(s)
  }

  function Run(interval: int, s: State, es: seq<Event>): State
    decreases |es|
  {
    if es == [] then s else Run(interval, Step(interval, s, es[0]), es[1..])
  }

  function Start(now: int): State {
    State(now, 0, Ready, [], [])
  }

  predicate Inv(interval: int, s: State) {
    && |s.permits| <= |s.arrivals| && (s.head.Sleeping? ==> |s.permits| < |s.arrivals|)
    && (forall i :: 0 <= i < |s.arrivals| ==> s.arrivals[i] <= s.now)
    && (forall i :: 0 <= i < |s.permits| ==> s.arrivals[i] <= s.permits[i] <= s.now)
    && (forall i :: 0 < i < |s.permits| ==> s.permits[i - 1] + interval <= s.permits[i])
    && (s.permits != [] ==> s.last == s.permits[|s.permits| - 1])
    && (s.head.Sleeping? ==> s.head.until == s.last + interval)
  }

  lemma StepKeeps(interval: int, s: State, e: Event)
    requires Inv(interval, s)
    ensures Inv(interval, Step(interval, s, e))
  {
  }

  lemma {:induction false} RunKeeps(interval: int, s: State, es: seq<Event>)
    requires Inv(interval, s)
    ensures Inv(interval, Run(interval, s, es))
    decreases |es|
  {
    if es != [] {
      StepKeeps(interval, s, es[0]);
      RunKeeps(interval, Step(interval, s, es[0]), es[1..]);
    }
  }

  /** How many permits fall in the closed window from `lo` to `hi`. */
  function InWindow(permits: seq<int>, lo: int, hi: int): nat
    decreases |permits|
  {
    if permits == [] then 0
    else
      var n := |permits| - 1;
      InWindow(permits[..n], lo, hi) + if lo <= permits[n] <= hi then 1 else 0
  }

  predicate Spaced(interval: int, permits: seq<int>) {
    forall i :: 0 < i < |permits| ==> permits[i - 1] + interval <= permits[i]
  }

  lemma {:induction false} LaterPermit(interval: int, permits: seq<int>, i: nat)
    requires interval >= 0 && Spaced(interval, permits) && i + 1 < |permits|
    ensures permits[i] + interval <= permits[|permits| - 1]
    decreases |permits|
  {
    var n := |permits| - 1;
    if i + 1 < n { LaterPermit(interval, permits[..n], i); }
  }

  lemma OneMore(n: int, interval: int)
    ensures (n + 1 - 1) * interval == (n - 1) * interval + interval
  {
  }

  /** The last of the permits in a window, that many intervals after its start. */
  lemma {:induction false} WindowSpan(interval: int, permits: seq<int>, lo: int, hi: int) returns (i: nat)
    requires interval >= 0 && Spaced(interval, permits) && InWindow(permits, lo, hi) > 0
    ensures i < |permits| && permits[i] <= hi && lo + (InWindow(permits, lo, hi) - 1) * interval <= permits[i]
    decreases |permits|
  {
    var n := |permits| - 1;
    var before := InWindow(permits[..n], lo, hi);
    if !(lo <= permits[n] <= hi) {
      i := WindowSpan(interval, permits[..n], lo, hi);
    } else {
      i := n;
      if before > 0 {
        var k := WindowSpan(interval, permits[..n], lo, hi);
        LaterPermit(interval, permits, k);
        OneMore(before, interval);
      }
    }
  }

  /** Permits are given in call order, never before the call, and at least the interval apart. */
  lemma InOrderAndSpaced(interval: int, now: int, es: seq<Event>)
    ensures var s := Run(interval, Start(now), es);
      && |s.permits| <= |s.arrivals|
      && (forall i :: 0 <= i < |s.permits| ==> s.arrivals[i] <= s.permits[i])
      && Spaced(interval, s.permits)
  {
    RunKeeps(interval, Start(now), es);
  }

  function Calls(es: seq<Event>): nat {
    if es == [] then 0 else (if es[0].Call? then 1 else 0) + Calls(es[1..])
  }

  /** No caller is forgotten: each waits, or has its permit. */
  lemma {:induction false} EveryCallQueues(interval: int, s: State, es: seq<Event>)
    ensures |Run(interval, s, es).arrivals| == |s.arrivals| + Calls(es)
    decreases |es|
  {
    if es != [] { EveryCallQueues(interval, Step(interval, s, es[0]), es[1..]); }
  }

  /** For any callers, every window of ten seconds holds at most five permits. */
  lemma FivePerTenSeconds(now: int, es: seq<Event>, lo: int)
    ensures InWindow(Run(REST_MIN_INTERVAL_MS, Start(now), es).permits, lo, lo + 10_000) <= 5
  {
    var permits := Run(REST_MIN_INTERVAL_MS, Start(now), es).permits;
    InOrderAndSpaced(REST_MIN_INTERVAL_MS, now, es);
    if InWindow(permits, lo, lo + 10_000) > 0 {
      var i := WindowSpan(REST_MIN_INTERVAL_MS, permits, lo, lo + 10_000);
    }
  }

  /** While a caller waits the pacer can move: at once, or once the clock reaches its timer. */
  lemma NeverStuck(interval: int, now: int, es: seq<Event>, later: int)
    requires var s := Run(interval, Start(now), es); |s.permits| < |s.arrivals| && later >= s.now
    requires var s := Run(interval, Start(now), es); later >= s.last + interval
    ensures var s := Step(interval, Run(interval, Start(now), es), Elapse(later));
      |Step(interval, s, if s.head.Ready? then Begin else Fire).permits| == |s.permits| + 1
  {
    RunKeeps(interval, Start(now), es);
  }

  class RestPacer {
    const minIntervalMs: int
    var last: int
    var head: Head
    ghost var now: int
    ghost var arrivals: seq<int>
    ghost var permits: seq<int>

    ghost function View(): State
      reads this
    {
      State(now, last, head, arrivals, permits)
    }

    ghost predicate Valid()
      reads this
    {
      Inv(minIntervalMs, View())
    }

    constructor (minIntervalMs: int, now: int)
      ensures Valid() && View() == Start(now) && this.minIntervalMs == minIntervalMs
    {
      this.minIntervalMs, this.now := minIntervalMs, now;
      last, head, arrivals, permits := 0, Ready, [], [];
    }

    ghost method Elapsed(to: int)
      requires Valid() && to >= now
      modifies this`now
      ensures View() == Step(minIntervalMs, old(View()), Elapse(to))
      ensures Valid()
    {
      now := to;
    }

    ghost method Called()
      requires Valid()
      modifies this`arrivals
      ensures View() == Step(minIntervalMs, old(View()), Call)
      ensures Valid()
    {
      arrivals := arrivals + [now];
    }

    /** The chain reaches the next caller at `clock`; tells how long it sleeps. */
    method BeginNext(clock: int) returns (wait: int)
      requires Valid() && clock == now && Enabled(View(), Begin)
      modifies this`head, this`last, this`permits
      ensures View() == Step(minIntervalMs, old(View()), Begin)
      ensures wait > 0 <==> head.Sleeping?
      ensures Valid()
    {
      wait := last + minIntervalMs - clock;
      if wait > 0 { head := Sleeping(clock + wait); } else { Grant(clock); }
    }

    method TimerFired(clock: int)
      requires Valid() && clock == now && Enabled(View(), Fire)
      modifies this`head, this`last, this`permits
      ensures View() == Step(minIntervalMs, old(View()), Fire)
      ensures Valid()
    {
      Grant(clock);
    }

    method Grant(clock: int)
      requires clock == now
      modifies this`head, this`last, this`permits
      ensures View() == Permit(old(View()))
    {
      head, last := Ready, clock;
      permits := permits + [clock];
    }
  }
}
