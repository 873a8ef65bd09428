/**
 * The cTrader account pool: which accounts each environment's session holds, the fingerprint it was loaded
 * under, and the routing index from (environment, ctid) to the account that receives its events. Account
 * objects are shared between a session and the index, so they are kept in one heap and referred to by
 * position; a token refresh changes one in place.
 */
module CtraderRouting {
  import opened Common
  import opened Signatures
  import Grouping

  datatype Environment = Demo | Live

  datatype Account = Account(env: Environment, ctid: nat, tokenId: string, expires: Option<int>, owner: string,
      nominal: real)

  datatype Route = Route(env: Environment, ctid: nat)

  /** `loaded` is what the fingerprint was computed from, at the last application or completed connect. */
  datatype Session = Session(accounts: seq<nat>, signature: string, loaded: seq<Triple>)

  datatype State = State(heap: seq<Account>, sessions: map<Environment, Session>, routing: map<Route, nat>)

  function Freshness(a: Account): int {
    if a.expires.Some? then a.expires.value else 0
  }

  function TripleOf(a: Account): Triple {
    Triple(a.ctid, a.tokenId, Freshness(a))
  }

  function RouteOf(a: Account): Route {
    Route(a.env, a.ctid)
  }

  // ---- duplicates ----

  /** The first of the freshest: what a stable descending sort puts first. */
  function Winner(list: seq<Account>): (w: Account)
    requires list != []
    ensures w in list && forall a :: a in list ==> Freshness(a) <= Freshness(w)
    decreases |list|
  {
    if |list| == 1 then list[0]
    else
      var n := |list| - 1;
      var w := Winner(list[..n]);
      assert list == list[..n] + [list[n]];
      if Freshness(list[n]) > Freshness(w) then list[n] else w
  }

  /** Whoever is listed before it is less fresh. */
  lemma {:induction false} WinnerIsFirst(list: seq<Account>) returns (i: nat)
    requires list != []
    ensures i < |list| && list[i] == Winner(list)
    ensures forall j :: 0 <= j < i ==> Freshness(list[j]) < Freshness(list[i])
    decreases |list|
  {
    if |list| == 1 {
      i := 0;
    } else {
      var n := |list| - 1;
      i := WinnerIsFirst(list[..n]);
      if Freshness(list[n]) > Freshness(list[i]) {
        i := n;
        forall j | 0 <= j < n ensures Freshness(list[j]) < Freshness(list[n]) { assert list[j] in list[..n]; }
      }
    }
  }

  function Winners(accounts: seq<Account>, keys: seq<Route>): seq<Account>
    requires forall k :: k in keys ==> k in Grouping.KeysOf(accounts, RouteOf)
  {
    seq(|keys|, i requires 0 <= i < |keys| => WinnerOf(accounts, keys[i]))
  }

  function WinnerOf(accounts: seq<Account>, k: Route): (w: Account)
    requires k in Grouping.KeysOf(accounts, RouteOf)
    ensures w in accounts && RouteOf(w) == k
  {
    MembersExist(accounts, k);
    Winner(Grouping.Members(accounts, RouteOf, k))
  }

  lemma MembersExist(accounts: seq<Account>, k: Route)
    requires k in Grouping.KeysOf(accounts, RouteOf)
    ensures Grouping.Members(accounts, RouteOf, k) != []
  {
    var a :| a in accounts && RouteOf(a) == k;
    assert a in Grouping.Members(accounts, RouteOf, k);
  }

  function Deduped(accounts: seq<Account>): seq<Account> {
    Winners(accounts, Grouping.KeysOf(accounts, RouteOf))
  }

  predicate OnePerCtid(accounts: seq<Account>) {
    forall i, j :: 0 <= i < j < |accounts| ==> RouteOf(accounts[i]) != RouteOf(accounts[j])
  }

  /** Of the accounts that share a ctid in an environment exactly one is kept, a freshest one; no ctid is lost. */
  lemma KeepsOneFreshest(accounts: seq<Account>)
    ensures var kept := Deduped(accounts);
      && OnePerCtid(kept)
      && (forall a :: a in kept ==> a in accounts)
      && (forall a :: a in accounts ==>
          exists w :: w in kept && RouteOf(w) == RouteOf(a) && Freshness(a) <= Freshness(w))
  {
    var keys, kept := Grouping.KeysOf(accounts, RouteOf), Deduped(accounts);
    Grouping.KeysDistinct(accounts, RouteOf);
    forall a | a in accounts ensures exists w :: w in kept && RouteOf(w) == RouteOf(a) && Freshness(a) <= Freshness(w) {
      assert RouteOf(a) in keys;
      var i :| 0 <= i < |keys| && keys[i] == RouteOf(a);
      assert a in Grouping.Members(accounts, RouteOf, keys[i]);
      assert kept[i] in kept;
    }
  }

  method DedupeByCtid(accounts: seq<Account>) returns (kept: seq<Account>)
    ensures kept == Deduped(accounts)
  {
    var order, byCtid := Grouping.Group(accounts, RouteOf);
    forall i | 0 <= i < |order|
      ensures order[i] in byCtid && byCtid[order[i]] == Grouping.Members(accounts, RouteOf, order[i])
    {
      Grouping.GroupOf(byCtid, accounts, RouteOf, order[i]);
    }
    kept := PickEach(accounts, order, byCtid);
  }

  method PickEach(accounts: seq<Account>, order: seq<Route>,
      byCtid: map<Route, seq<Account>>) returns (kept: seq<Account>)
    requires forall k :: k in order ==> k in Grouping.KeysOf(accounts, RouteOf)
    requires forall i :: 0 <= i < |order| ==>
        order[i] in byCtid && byCtid[order[i]] == Grouping.Members(accounts, RouteOf, order[i])
    ensures kept == Winners(accounts, order)
  {
    kept := [];
    for i := 0 to |order|
      invariant |kept| == i && forall j :: 0 <= j < i ==> kept[j] == WinnerOf(accounts, order[j])
    {
      MembersExist(accounts, order[i]);
      var winner := Pick(byCtid[order[i]]);
      kept := kept + [winner];
    }
  }

  /** A single account needs no ranking. */
  method Pick(list: seq<Account>) returns (winner: Account)
    requires list != []
    ensures winner == Winner(list)
  {
    if |list| == 1 { return list[0]; }
    winner := list[0];
    for i := 1 to |list|
      invariant winner == Winner(list[..i])
    {
      assert list[..i + 1][..i] == list[..i];
      if Freshness(list[i]) > Freshness(winner) { winner := list[i]; }
    }
    assert list[..|list|] == list;
  }

  // ---- the routing index ----

  function Lookup<K, V>(m: map<K, V>, k: K): Option<V> {
    if k in m then Some(m[k]) else None
  }

  predicate Refs(heap: seq<Account>, refs: seq<nat>) {
    forall i :: 0 <= i < |refs| ==> refs[i] < |heap|
  }

  /** The account of a list that answers to a ctid; were there two, the later one. */
  function Find(heap: seq<Account>, refs: seq<nat>, ctid: nat): Option<nat>
    requires Refs(heap, refs)
    decreases |refs|
  {
    if refs == [] then None
    else
      var n := |refs| - 1;
      if heap[refs[n]].ctid == ctid then Some(refs[n]) else Find(heap, refs[..n], ctid)
  }

  function SetRoutes(routing: map<Route, nat>, heap: seq<Account>, env: Environment, refs: seq<nat>): map<Route, nat>
    requires Refs(heap, refs)
    decreases |refs|
  {
    if refs == [] then routing
    else
      var n := |refs| - 1;
      SetRoutes(routing, heap, env, refs[..n])[Route(env, heap[refs[n]].ctid) := refs[n]]
  }

  function ClearRoutes(routing: map<Route, nat>, heap: seq<Account>, env: Environment, refs: seq<nat>): map<Route, nat>
    requires Refs(heap, refs)
    decreases |refs|
  {
    if refs == [] then routing
    else
      var n := |refs| - 1;
      ClearRoutes(routing, heap, env, refs[..n]) - {Route(env, heap[refs[n]].ctid)}
  }

  lemma {:induction false} SetRoutesAt(routing: map<Route, nat>, heap: seq<Account>, env: Environment, refs: seq<nat>,
      r: Route)
    requires Refs(heap, refs)
    ensures Lookup(SetRoutes(routing, heap, env, refs), r)
            == if r.env == env && Find(heap, refs, r.ctid).Some? then Find(heap, refs, r.ctid) else Lookup(routing, r)
    decreases |refs|
  {
    if refs != [] { SetRoutesAt(routing, heap, env, refs[..|refs| - 1], r); }
  }

  lemma {:induction false} ClearRoutesAt(routing: map<Route, nat>, heap: seq<Account>, env: Environment,
      refs: seq<nat>, r: Route)
    requires Refs(heap, refs)
    ensures Lookup(ClearRoutes(routing, heap, env, refs), r)
            == if r.env == env && Find(heap, refs, r.ctid).Some? then None else Lookup(routing, r)
    decreases |refs|
  {
    if refs != [] { ClearRoutesAt(routing, heap, env, refs[..|refs| - 1], r); }
  }

  // ---- applying a loaded account set ----

  /** The loaded accounts of an environment, by their place in the heap once they are added at `base`. */
  function Desired(loadedRows: seq<Account>, base: nat, env: Environment): (refs: seq<nat>)
    ensures forall i :: 0 <= i < |refs| ==>
        base <= refs[i] < base + |loadedRows| && loadedRows[refs[i] - base].env == env
    ensures forall i, j :: 0 <= i < j < |refs| ==> refs[i] < refs[j]
    decreases |loadedRows|
  {
    if loadedRows == [] then []
    else
      var n := |loadedRows| - 1;
      Desired(loadedRows[..n], base, env) + if loadedRows[n].env == env then [base + n] else []
  }

  function Triples(heap: seq<Account>, refs: seq<nat>): (ts: seq<Triple>)
    requires Refs(heap, refs)
    ensures |ts| == |refs| && forall i :: 0 <= i < |refs| ==> ts[i] == TripleOf(heap[refs[i]])
  {
    seq(|refs|, i requires 0 <= i < |refs| => TripleOf(heap[refs[i]]))
  }

  function Loaded(heap: seq<Account>, refs: seq<nat>): Session
    requires Refs(heap, refs)
  {
    Session(refs, Signature(Triples(heap, refs)), Triples(heap, refs))
  }

  predicate Sound(s: State) {
    forall env :: env in s.sessions ==> Refs(s.heap, s.sessions[env].accounts)
  }

  function ApplyEnv(s: State, env: Environment, desired: seq<nat>): (t: State)
    requires Sound(s) && Refs(s.heap, desired)
    ensures Sound(t) && t.heap == s.heap
  {
    if env !in s.sessions then
      if desired == [] then s
      else s.(sessions := s.sessions[env := Loaded(s.heap, desired)],
          routing := SetRoutes(s.routing, s.heap, env, desired))
    else
      var session := s.sessions[env];
      if desired == [] then
        s.(sessions := s.sessions - {env}, routing := ClearRoutes(s.routing, s.heap, env, session.accounts))
      else if Signature(Triples(s.heap, desired)) == session.signature then s
      else
        s.(sessions := s.sessions[env := Loaded(s.heap, desired)],
           routing := SetRoutes(ClearRoutes(s.routing, s.heap, env, session.accounts), s.heap, env, desired))
  }

  /** One environment after the other, `first` first. */
  function Apply(s: State, loadedRows: seq<Account>, first: Environment): State
    requires Sound(s)
  {
    var base := |s.heap|;
    var second := if first == Demo then Live else Demo;
    var s1 := s.(heap := s.heap + loadedRows);
    ApplyEnv(ApplyEnv(s1, first, Desired(loadedRows, base, first)), second, Desired(loadedRows, base, second))
  }

  // ---- invariants ----

  /** The session's fingerprint is that of these triples, whose ctids and token ids are still its accounts'. */
  predicate LoadedAs(s: State, env: Environment)
    requires Sound(s) && env in s.sessions
  {
    var session := s.sessions[env];
    && session.accounts != [] && |session.loaded| == |session.accounts|
        && session.signature == Signature(session.loaded)
    && DistinctCtids(session.loaded) && (forall t :: t in session.loaded ==> Plain(t))
    && forall i :: 0 <= i < |session.accounts| ==>
         var a := s.heap[session.accounts[i]];
         a.env == env && a.ctid == session.loaded[i].ctid && a.tokenId == session.loaded[i].tokenId
  }

  /** What the index should hold: the account of the environment's session that answers to the ctid. */
  function Routed(s: State, r: Route): Option<nat>
    requires Sound(s)
  {
    if r.env in s.sessions then Find(s.heap, s.sessions[r.env].accounts, r.ctid) else None
  }

  ghost predicate Inv(s: State) {
    && Sound(s) && (forall env :: env in s.sessions ==> LoadedAs(s, env))
    && forall r :: Lookup(s.routing, r) == Routed(s, r)
  }

  predicate FreshOk(loadedRows: seq<Account>) {
    OnePerCtid(loadedRows) && forall a :: a in loadedRows ==> Plain(TripleOf(a))
  }

  lemma {:induction false} FindSplit(heap: seq<Account>, more: seq<Account>, refs: seq<nat>, ctid: nat)
    requires Refs(heap, refs)
    ensures Refs(heap + more, refs) && Find(heap + more, refs, ctid) == Find(heap, refs, ctid)
    decreases |refs|
  {
    if refs != [] { FindSplit(heap, more, refs[..|refs| - 1], ctid); }
  }

  lemma GrowKeeps(s: State, loadedRows: seq<Account>)
    requires Inv(s)
    ensures Inv(s.(heap := s.heap + loadedRows))
  {
    var t := s.(heap := s.heap + loadedRows);
    forall env | env in t.sessions ensures LoadedAs(t, env) { assert LoadedAs(s, env); }
    forall r ensures Lookup(t.routing, r) == Routed(t, r) {
      assert Lookup(s.routing, r) == Routed(s, r);
      if r.env in s.sessions { FindSplit(s.heap, loadedRows, s.sessions[r.env].accounts, r.ctid); }
    }
  }

  /** The accounts to load for an environment: its own, each ctid once, with plain token ids. */
  predicate Loadable(heap: seq<Account>, env: Environment, desired: seq<nat>) {
    && Refs(heap, desired) && DistinctCtids(Triples(heap, desired))
    && (forall t :: t in Triples(heap, desired) ==> Plain(t))
    && forall i :: 0 <= i < |desired| ==> heap[desired[i]].env == env
  }

  lemma ApplyEnvLoads(s: State, env: Environment, desired: seq<nat>, e: Environment)
    requires Sound(s) && (e in s.sessions ==> LoadedAs(s, e)) && Loadable(s.heap, env, desired)
    requires e in ApplyEnv(s, env, desired).sessions
    ensures LoadedAs(ApplyEnv(s, env, desired), e)
  {
  }

  lemma ApplyEnvKeeps(s: State, env: Environment, desired: seq<nat>)
    requires Inv(s) && Loadable(s.heap, env, desired)
    ensures Inv(ApplyEnv(s, env, desired))
  {
    var t := ApplyEnv(s, env, desired);
    forall e | e in t.sessions ensures LoadedAs(t, e) { ApplyEnvLoads(s, env, desired, e); }
    forall r ensures Lookup(t.routing, r) == Routed(t, r) { ApplyEnvRoutes(s, env, desired, r); }
  }

  lemma NewEnvRoutes(s: State, env: Environment, desired: seq<nat>, r: Route)
    requires Inv(s) && Refs(s.heap, desired) && env !in s.sessions
    ensures Lookup(ApplyEnv(s, env, desired).routing, r) == Routed(ApplyEnv(s, env, desired), r)
  {
    assert Lookup(s.routing, r) == Routed(s, r);
    SetRoutesAt(s.routing, s.heap, env, desired, r);
  }

  lemma OldEnvRoutes(s: State, env: Environment, desired: seq<nat>, r: Route)
    requires Inv(s) && Refs(s.heap, desired) && env in s.sessions
    ensures Lookup(ApplyEnv(s, env, desired).routing, r) == Routed(ApplyEnv(s, env, desired), r)
  {
    if desired == [] {
      OldRouteCleared(s, env, r);
    } else if ApplyEnv(s, env, desired) == s {
      assert Lookup(s.routing, r) == Routed(s, r);
    } else {
      ReplacedRoutes(s, env, desired, r);
    }
  }

  lemma ReplacedRoutes(s: State, env: Environment, desired: seq<nat>, r: Route)
    requires Inv(s) && Refs(s.heap, desired) && env in s.sessions && desired != []
    ensures var t := s.(sessions := s.sessions[env := Loaded(s.heap, desired)],
                        routing := SetRoutes(ClearRoutes(s.routing, s.heap, env, s.sessions[env].accounts),
                                             s.heap, env, desired));
      Sound(t) && Lookup(t.routing, r) == Routed(t, r)
  {
    OldRouteCleared(s, env, r);
    SetRoutesAt(ClearRoutes(s.routing, s.heap, env, s.sessions[env].accounts), s.heap, env, desired, r);
  }

  /** Clearing an environment's accounts leaves the other routes, and none of its own. */
  lemma OldRouteCleared(s: State, env: Environment, r: Route)
    requires Inv(s) && env in s.sessions
    ensures Lookup(ClearRoutes(s.routing, s.heap, env, s.sessions[env].accounts), r) ==
              if r.env == env then None else Routed(s, r)
  {
    assert Lookup(s.routing, r) == Routed(s, r);
    ClearRoutesAt(s.routing, s.heap, env, s.sessions[env].accounts, r);
  }

  lemma ApplyEnvRoutes(s: State, env: Environment, desired: seq<nat>, r: Route)
    requires Inv(s) && Refs(s.heap, desired)
    ensures Lookup(ApplyEnv(s, env, desired).routing, r) == Routed(ApplyEnv(s, env, desired), r)
  {
    if env in s.sessions { OldEnvRoutes(s, env, desired, r); } else { NewEnvRoutes(s, env, desired, r); }
  }

  // ---- what one application achieves ----

  /** What the fingerprint sees of the loaded rows of an environment. */
  function Wanted(loadedRows: seq<Account>, env: Environment): seq<Triple>
    decreases |loadedRows|
  {
    if loadedRows == [] then []
    else
      var n := |loadedRows| - 1;
      Wanted(loadedRows[..n], env) + if loadedRows[n].env == env then [TripleOf(loadedRows[n])] else []
  }

  lemma {:induction false} DesiredTriples(heap: seq<Account>, loadedRows: seq<Account>, base: nat, env: Environment)
    requires base + |loadedRows| <= |heap| && heap[base..base + |loadedRows|] == loadedRows
    ensures Triples(heap, Desired(loadedRows, base, env)) == Wanted(loadedRows, env)
    decreases |loadedRows|
  {
    if loadedRows != [] {
      var n := |loadedRows| - 1;
      assert heap[base..base + n] == loadedRows[..n];
      assert heap[base + n] == heap[base..base + |loadedRows|][n];
      DesiredTriples(heap, loadedRows[..n], base, env);
    }
  }

  lemma DesiredLoadable(before: seq<Account>, loadedRows: seq<Account>, env: Environment)
    requires FreshOk(loadedRows)
    ensures Loadable(before + loadedRows, env, Desired(loadedRows, |before|, env))
  {
    var heap, desired := before + loadedRows, Desired(loadedRows, |before|, env);
    forall i | 0 <= i < |desired|
      ensures heap[desired[i]] == loadedRows[desired[i] - |before|] && heap[desired[i]] in loadedRows
          && heap[desired[i]].env == env
    {
    }
    var ts := Triples(heap, desired);
    forall i, j | 0 <= i < j < |ts| ensures ts[i].ctid != ts[j].ctid {
      assert RouteOf(loadedRows[desired[i] - |before|]) != RouteOf(loadedRows[desired[j] - |before|]);
    }
  }

  /** Environment `env` holds what was wanted: no session for no accounts, and else one loaded from that set. */
  ghost predicate Matches(s: State, env: Environment, wanted: seq<Triple>) {
    && (env in s.sessions <==> wanted != [])
    && (env in s.sessions ==>
        s.sessions[env].signature == Signature(wanted) && Set(s.sessions[env].loaded) == Set(wanted))
  }

  /** The session stays as it is exactly when the wanted set is the one it was loaded with. */
  ghost predicate ReplacedUnlessSame(s: State, t: State, env: Environment, wanted: seq<Triple>)
    requires env in s.sessions
  {
    env in t.sessions && (t.sessions[env] == s.sessions[env] <==> Set(wanted) == Set(s.sessions[env].loaded))
  }

  lemma OtherEnv(s: State, env: Environment, desired: seq<nat>, other: Environment)
    requires Sound(s) && Refs(s.heap, desired) && other != env
    ensures Lookup(ApplyEnv(s, env, desired).sessions, other) == Lookup(s.sessions, other)
  {
  }

  lemma MatchesOther(s: State, env: Environment, desired: seq<nat>, other: Environment, wanted: seq<Triple>)
    requires Sound(s) && Refs(s.heap, desired) && other != env && Matches(s, other, wanted)
    ensures Matches(ApplyEnv(s, env, desired), other, wanted)
  {
  }

  lemma ApplyEnvMatches(s: State, env: Environment, desired: seq<nat>)
    requires Inv(s) && Loadable(s.heap, env, desired)
    ensures Matches(ApplyEnv(s, env, desired), env, Triples(s.heap, desired))
    ensures env in s.sessions && desired != [] ==>
        ReplacedUnlessSame(s, ApplyEnv(s, env, desired), env, Triples(s.heap, desired))
  {
    if env in s.sessions {
      assert LoadedAs(s, env);
      SameSignatureSameSet(s.sessions[env].loaded, Triples(s.heap, desired));
    }
  }

  /** The loaded rows of an environment are ready to be its session's accounts. */
  lemma ReadyToLoad(before: seq<Account>, loadedRows: seq<Account>, env: Environment)
    requires FreshOk(loadedRows)
    ensures var desired := Desired(loadedRows, |before|, env);
      Loadable(before + loadedRows, env, desired) && Triples(before + loadedRows, desired) == Wanted(loadedRows, env)
  {
    DesiredLoadable(before, loadedRows, env);
    assert (before + loadedRows)[|before|..|before| + |loadedRows|] == loadedRows;
    DesiredTriples(before + loadedRows, loadedRows, |before|, env);
  }

  /** The intermediate state of an application, with both environments ready to load. */
  lemma BothLoadable(s: State, loadedRows: seq<Account>, first: Environment)
    requires Inv(s) && FreshOk(loadedRows)
    ensures var base := |s.heap|; var s1 := s.(heap := s.heap + loadedRows);
      var s2 := ApplyEnv(s1, first, Desired(loadedRows, base, first));
      && Inv(s1) && Inv(s2) && s2.heap == s1.heap
      && forall env :: Loadable(s1.heap, env, Desired(loadedRows, base, env))
                       && Triples(s1.heap, Desired(loadedRows, base, env)) == Wanted(loadedRows, env)
  {
    GrowKeeps(s, loadedRows);
    forall env ensures Loadable(s.heap + loadedRows, env, Desired(loadedRows, |s.heap|, env))
      ensures Triples(s.heap + loadedRows, Desired(loadedRows, |s.heap|, env)) == Wanted(loadedRows, env)
    {
      ReadyToLoad(s.heap, loadedRows, env);
    }
    ApplyEnvKeeps(s.(heap := s.heap + loadedRows), first, Desired(loadedRows, |s.heap|, first));
  }

  /** An application keeps the invariant, and leaves each environment with exactly what was loaded for it. */
  lemma ApplyAchieves(s: State, loadedRows: seq<Account>, first: Environment)
    requires Inv(s) && FreshOk(loadedRows)
    ensures Inv(Apply(s, loadedRows, first))
    ensures forall env :: Matches(Apply(s, loadedRows, first), env, Wanted(loadedRows, env))
  {
    var base := |s.heap|;
    var s1 := s.(heap := s.heap + loadedRows);
    var second := if first == Demo then Live else Demo;
    BothLoadable(s, loadedRows, first);
    var s2 := ApplyEnv(s1, first, Desired(loadedRows, base, first));
    ApplyEnvMatches(s1, first, Desired(loadedRows, base, first));
    ApplyEnvKeeps(s2, second, Desired(loadedRows, base, second));
    ApplyEnvMatches(s2, second, Desired(loadedRows, base, second));
    MatchesOther(s2, second, Desired(loadedRows, base, second), first, Wanted(loadedRows, first));
    var t := ApplyEnv(s2, second, Desired(loadedRows, base, second));
    forall env ensures Matches(t, env, Wanted(loadedRows, env)) {
      assert env == first || env == second;
    }
  }

  lemma ApplyEnvIdle(s: State, env: Environment, desired: seq<nat>)
    requires Sound(s) && Refs(s.heap, desired) && Matches(s, env, Triples(s.heap, desired))
    ensures ApplyEnv(s, env, desired) == s
  {
  }

  /**
   * Reconcile converges: afterwards the sessions are exactly the environments with accounts, each under the
   * fingerprint of its loaded set, and applying the same set again, in either order, changes nothing.
   */
  lemma ReconcileConverges(s: State, loadedRows: seq<Account>, first: Environment, again: Environment)
    requires Inv(s) && FreshOk(loadedRows)
    ensures var t := Apply(s, loadedRows, first);
      && Inv(t)
      && (forall env :: env in t.sessions <==> Wanted(loadedRows, env) != [])
      && (forall env :: env in t.sessions ==> t.sessions[env].signature == Signature(Wanted(loadedRows, env)))
      && Apply(t, loadedRows, again) == t.(heap := t.heap + loadedRows)
  {
    var t := Apply(s, loadedRows, first);
    ApplyAchieves(s, loadedRows, first);
    BothLoadable(t, loadedRows, again);
    var t1 := t.(heap := t.heap + loadedRows);
    forall env ensures Matches(t, env, Wanted(loadedRows, env)) && Matches(t1, env, Wanted(loadedRows, env)) {
    }
    ApplyEnvIdle(t1, again, Desired(loadedRows, |t.heap|, again));
    var other := if again == Demo then Live else Demo;
    ApplyEnvIdle(t1, other, Desired(loadedRows, |t.heap|, other));
  }

  /**
   * A session is replaced exactly when the loaded set of (ctid, token, expiry) differs from the one its
   * fingerprint was last computed from: whatever else changed about its accounts goes unnoticed.
   */
  lemma ReplacedExactly(s: State, loadedRows: seq<Account>, first: Environment, env: Environment)
    requires Inv(s) && FreshOk(loadedRows) && env in s.sessions && Wanted(loadedRows, env) != []
    ensures ReplacedUnlessSame(s, Apply(s, loadedRows, first), env, Wanted(loadedRows, env))
  {
    var base := |s.heap|;
    var s1 := s.(heap := s.heap + loadedRows);
    var second := if first == Demo then Live else Demo;
    BothLoadable(s, loadedRows, first);
    var d1, d2 := Desired(loadedRows, base, first), Desired(loadedRows, base, second);
    var s2 := ApplyEnv(s1, first, d1);
    if env == first {
      ApplyEnvMatches(s1, first, d1);
      OtherEnv(s2, second, d2, env);
    } else {
      OtherEnv(s1, first, d1, env);
      ApplyEnvMatches(s2, second, d2);
    }
    assert Lookup(s1.sessions, env) == Some(s.sessions[env]);
  }

  lemma {:induction false} FindExactly(heap: seq<Account>, refs: seq<nat>, ctid: nat)
    requires Refs(heap, refs)
    ensures Find(heap, refs, ctid).Some? <==> exists i :: 0 <= i < |refs| && heap[refs[i]].ctid == ctid
    ensures Find(heap, refs, ctid).Some? ==>
      Find(heap, refs, ctid).value in refs && heap[Find(heap, refs, ctid).value].ctid == ctid
    decreases |refs|
  {
    if refs != [] { FindExactly(heap, refs[..|refs| - 1], ctid); }
  }

  lemma {:induction false} WantedExactly(loadedRows: seq<Account>, env: Environment, t: Triple)
    ensures t in Wanted(loadedRows, env) <==> exists a :: a in loadedRows && a.env == env && TripleOf(a) == t
    decreases |loadedRows|
  {
    if loadedRows != [] {
      var n := |loadedRows| - 1;
      WantedExactly(loadedRows[..n], env, t);
      assert loadedRows == loadedRows[..n] + [loadedRows[n]];
    }
  }

  /** Some loaded row has this environment, ctid and token. */
  ghost predicate RowFor(loadedRows: seq<Account>, r: Route, tokenId: string) {
    exists a :: a in loadedRows && RouteOf(a) == r && a.tokenId == tokenId
  }

  /** After a reconcile an event of a ctid reaches an account exactly when its row is loaded, and the right one. */
  lemma RoutedExactly(s: State, loadedRows: seq<Account>, first: Environment, r: Route, tokenId: string)
    requires Inv(s) && FreshOk(loadedRows)
    ensures var t := Apply(s, loadedRows, first);
      (r in t.routing && t.routing[r] < |t.heap| && t.heap[t.routing[r]].tokenId == tokenId) <==>
          RowFor(loadedRows, r, tokenId)
  {
    var t := Apply(s, loadedRows, first);
    ApplyAchieves(s, loadedRows, first);
    RoutedAsLoaded(t, r, tokenId);
    assert Matches(t, r.env, Wanted(loadedRows, r.env));
    if r.env in t.sessions {
      LoadedRows(t, loadedRows, r, tokenId);
    } else if RowFor(loadedRows, r, tokenId) {
      var a :| a in loadedRows && RouteOf(a) == r && a.tokenId == tokenId;
      WantedExactly(loadedRows, r.env, TripleOf(a));
    }
  }

  /** Some triple of the session's loaded set has this ctid and token. */
  ghost predicate LoadedFor(s: State, r: Route, tokenId: string) {
    && r.env in s.sessions
    && var loaded := s.sessions[r.env].loaded;
       exists i :: 0 <= i < |loaded| && loaded[i].ctid == r.ctid && loaded[i].tokenId == tokenId
  }

  lemma RoutedAsLoaded(s: State, r: Route, tokenId: string)
    requires Inv(s)
    ensures (r in s.routing && s.routing[r] < |s.heap| && s.heap[s.routing[r]].tokenId == tokenId) <==>
        LoadedFor(s, r, tokenId)
  {
    assert Lookup(s.routing, r) == Routed(s, r);
    if r.env in s.sessions {
      assert LoadedAs(s, r.env);
      FoundAsLoaded(s.heap, s.sessions[r.env], r.ctid, tokenId);
    }
  }

  /** In a session whose accounts are those it was loaded with, the account of a ctid has the loaded token. */
  lemma FoundAsLoaded(heap: seq<Account>, session: Session, ctid: nat, tokenId: string)
    requires Refs(heap, session.accounts) && |session.loaded| == |session.accounts| && DistinctCtids(session.loaded)
    requires forall i :: 0 <= i < |session.accounts| ==>
      heap[session.accounts[i]].ctid == session.loaded[i].ctid
          && heap[session.accounts[i]].tokenId == session.loaded[i].tokenId
    ensures var found := Find(heap, session.accounts, ctid);
      (found.Some? && found.value < |heap| && heap[found.value].tokenId == tokenId) <==>
        exists i :: 0 <= i < |session.loaded| && session.loaded[i].ctid == ctid && session.loaded[i].tokenId == tokenId
  {
    FindExactly(heap, session.accounts, ctid);
    var found := Find(heap, session.accounts, ctid);
    if found.Some? {
      var i :| 0 <= i < |session.accounts| && session.accounts[i] == found.value;
      assert session.loaded[i].ctid == ctid;
    }
  }

  lemma LoadedRows(t: State, loadedRows: seq<Account>, r: Route, tokenId: string)
    requires r.env in t.sessions && Set(t.sessions[r.env].loaded) == Set(Wanted(loadedRows, r.env))
    ensures LoadedFor(t, r, tokenId) <==> RowFor(loadedRows, r, tokenId)
  {
    var loaded, wanted := t.sessions[r.env].loaded, Wanted(loadedRows, r.env);
    if i :| 0 <= i < |loaded| && loaded[i].ctid == r.ctid && loaded[i].tokenId == tokenId {
      assert loaded[i] in Set(loaded);
      WantedExactly(loadedRows, r.env, loaded[i]);
    }
    if a :| a in loadedRows && RouteOf(a) == r && a.tokenId == tokenId {
      WantedExactly(loadedRows, r.env, TripleOf(a));
      assert TripleOf(a) in Set(wanted);
      var i :| 0 <= i < |loaded| && loaded[i] == TripleOf(a);
    }
  }

  // ---- refreshes and runs ----

  /** ensureFreshToken, or a forced expiry, on an account object in place. */
  function Refresh(s: State, ref: nat, expires: int): State
    requires ref < |s.heap|
  {
    s.(heap := s.heap[ref := s.heap[ref].(expires := Some(expires))])
  }

  lemma {:induction false} FindRefreshed(heap: seq<Account>, ref: nat, expires: int, refs: seq<nat>, ctid: nat)
    requires ref < |heap| && Refs(heap, refs)
    ensures Find(heap[ref := heap[ref].(expires := Some(expires))], refs, ctid) == Find(heap, refs, ctid)
    decreases |refs|
  {
    if refs != [] { FindRefreshed(heap, ref, expires, refs[..|refs| - 1], ctid); }
  }

  /** A refresh in place reaches the index through the shared object, and disturbs nothing. */
  lemma RefreshKeeps(s: State, ref: nat, expires: int)
    requires Inv(s) && ref < |s.heap|
    ensures Inv(Refresh(s, ref, expires))
  {
    var t := Refresh(s, ref, expires);
    forall env | env in t.sessions ensures LoadedAs(t, env) { assert LoadedAs(s, env); }
    forall r ensures Lookup(t.routing, r) == Routed(t, r) {
      assert Lookup(s.routing, r) == Routed(s, r);
      if r.env in s.sessions { FindRefreshed(s.heap, ref, expires, s.sessions[r.env].accounts, r.ctid); }
    }
  }

  lemma MovedExpiry(loaded: seq<Triple>, wanted: seq<Triple>, t: Triple, i: nat)
    requires DistinctCtids(loaded) && t in wanted && i < |loaded| && loaded[i].ctid == t.ctid
        && loaded[i].expiry != t.expiry
    ensures Set(wanted) != Set(loaded)
  {
    assert t in Set(wanted);
    forall j | 0 <= j < |loaded| ensures loaded[j] != t {
      if j != i { assert loaded[i].ctid != loaded[j].ctid; }
    }
  }

  /**
   * A row whose expiry is not the one the fingerprint was computed from makes the next application replace the
   * session.
   */
  lemma MovedExpiryReconnects(s: State, loadedRows: seq<Account>, first: Environment, a: Account, i: nat)
    requires Inv(s) && FreshOk(loadedRows) && a.env in s.sessions && a in loadedRows
    requires i < |s.sessions[a.env].loaded| && s.sessions[a.env].loaded[i].ctid == a.ctid
    requires s.sessions[a.env].loaded[i].expiry != Freshness(a)
    ensures a.env in Apply(s, loadedRows, first).sessions
        && Apply(s, loadedRows, first).sessions[a.env] != s.sessions[a.env]
  {
    assert LoadedAs(s, a.env);
    WantedExactly(loadedRows, a.env, TripleOf(a));
    MovedExpiry(s.sessions[a.env].loaded, Wanted(loadedRows, a.env), TripleOf(a), i);
    ReplacedExactly(s, loadedRows, first, a.env);
  }

  /** The end of a completed connect: the fingerprint is computed again from the accounts as they are now. */
  function Resync(s: State, env: Environment): (t: State)
    requires Sound(s)
    ensures Sound(t)
  {
    if env in s.sessions then s.(sessions := s.sessions[env := Loaded(s.heap, s.sessions[env].accounts)]) else s
  }

  lemma ResyncLoads(s: State, env: Environment)
    requires Sound(s) && env in s.sessions && LoadedAs(s, env)
    ensures LoadedAs(Resync(s, env), env)
  {
    var session := s.sessions[env];
    var now := Triples(s.heap, session.accounts);
    forall t | t in now ensures Plain(t) {
      var i :| 0 <= i < |now| && now[i] == t;
      assert session.loaded[i] in session.loaded;
    }
  }

  lemma ResyncKeeps(s: State, env: Environment)
    requires Inv(s)
    ensures Inv(Resync(s, env))
  {
    var t := Resync(s, env);
    forall e | e in t.sessions ensures LoadedAs(t, e) {
      assert LoadedAs(s, e);
      if e == env { ResyncLoads(s, env); }
    }
    forall r ensures Lookup(t.routing, r) == Routed(t, r) { assert Lookup(s.routing, r) == Routed(s, r); }
  }

  datatype Event =
    | Reconcile(loadedRows: seq<Account>, first: Environment)
    | Refreshed(ref: nat, expires: int)
    | Connected(env: Environment)
    | Destroy

  function Step(s: State, e: Event): (t: State)
    requires Sound(s)
    ensures Sound(t)
  {
    match e
    case Reconcile(rows, first) => Apply(s, Deduped(rows), first)
    case Refreshed(ref, expires) => if ref < |s.heap| then Refresh(s, ref, expires) else s
    case Connected(env) => Resync(s, env)
    case Destroy => s.(sessions := map[], routing := map[])
  }

  function Run(s: State, es: seq<Event>): (t: State)
    requires Sound(s)
    ensures Sound(t)
    decreases |es|
  {
    if es == [] then s else Run(Step(s, es[0]), es[1..])
  }

  predicate PlainRows(e: Event) {
    e.Reconcile? ==> forall a :: a in e.loadedRows ==> Plain(TripleOf(a))
  }

  lemma StepKeeps(s: State, e: Event)
    requires Inv(s) && PlainRows(e)
    ensures Inv(Step(s, e))
  {
    match e
    case Reconcile(rows, first) =>
      KeepsOneFreshest(rows);
      ApplyAchieves(s, Deduped(rows), first);
    case Refreshed(ref, expires) => if ref < |s.heap| { RefreshKeeps(s, ref, expires); }
    case Connected(env) => ResyncKeeps(s, env);
    case Destroy =>
  }

  lemma {:induction false} RunKeeps(s: State, es: seq<Event>)
    requires Inv(s) && forall e :: e in es ==> PlainRows(e)
    ensures Inv(Run(s, es))
    decreases |es|
  {
    if es != [] {
      assert es[0] in es;
      StepKeeps(s, es[0]);
      RunKeeps(Step(s, es[0]), es[1..]);
    }
  }

  /** Through any reconciles, refreshes and connects the index is the map derived from the sessions' accounts. */
  lemma RoutingIsDerived(s: State, es: seq<Event>)
    requires Inv(s) && forall e :: e in es ==> PlainRows(e)
    ensures forall r :: Lookup(Run(s, es).routing, r) == Routed(Run(s, es), r)
  {
    RunKeeps(s, es);
  }

  // ---- when the worker's own refresh makes it reconnect ----

  /** The session's accounts are not what its fingerprint was computed from: some expiry has moved. */
  predicate Moved(s: State, env: Environment)
    requires Sound(s)
  {
    env in s.sessions && s.sessions[env].loaded != Triples(s.heap, s.sessions[env].accounts)
  }

  /** The rows of an environment are what the session's account objects hold now: nobody else changed them. */
  ghost predicate Mirrored(s: State, env: Environment, loadedRows: seq<Account>)
    requires Sound(s)
  {
    env in s.sessions && Set(Wanted(loadedRows, env)) == Set(Triples(s.heap, s.sessions[env].accounts))
  }

  lemma SameSetSameOrder(xs: seq<Triple>, ys: seq<Triple>)
    requires |xs| == |ys| && DistinctCtids(xs) && forall i :: 0 <= i < |xs| ==> xs[i].ctid == ys[i].ctid
    ensures Set(xs) == Set(ys) <==> xs == ys
  {
    if Set(xs) == Set(ys) {
      forall i | 0 <= i < |xs| ensures xs[i] == ys[i] {
        assert xs[i] in Set(ys);
        var j :| 0 <= j < |ys| && ys[j] == xs[i];
      }
    }
  }

  lemma NonEmptyWanted(ts: seq<Triple>, wanted: seq<Triple>)
    requires ts != [] && Set(wanted) == Set(ts)
    ensures wanted != []
  {
    assert ts[0] in Set(ts);
  }

  /**
   * With rows that differ from the worker's own accounts in nothing, an application replaces the session if
   * and only if an account was refreshed since the fingerprint was last computed: by a connect that was
   * superseded before its end, or is still under way.
   */
  lemma SelfReconnectExactly(s: State, loadedRows: seq<Account>, first: Environment, env: Environment)
    requires Inv(s) && FreshOk(loadedRows) && Mirrored(s, env, loadedRows)
    ensures env in Apply(s, loadedRows, first).sessions
    ensures Apply(s, loadedRows, first).sessions[env] != s.sessions[env] <==> Moved(s, env)
  {
    var session := s.sessions[env];
    var now := Triples(s.heap, session.accounts);
    assert LoadedAs(s, env);
    NonEmptyWanted(now, Wanted(loadedRows, env));
    SameSetSameOrder(session.loaded, now);
    ReplacedExactly(s, loadedRows, first, env);
  }

  lemma GrowMoves(s: State, more: seq<Account>, env: Environment)
    requires Sound(s)
    ensures Sound(s.(heap := s.heap + more)) && (Moved(s.(heap := s.heap + more), env) <==> Moved(s, env))
  {
    if env in s.sessions {
      var refs := s.sessions[env].accounts;
      assert Triples(s.heap + more, refs) == Triples(s.heap, refs);
    }
  }

  lemma ApplyEnvMoves(s: State, env: Environment, desired: seq<nat>, e: Environment)
    requires Sound(s) && Refs(s.heap, desired) && !Moved(s, e)
    ensures !Moved(ApplyEnv(s, env, desired), e)
  {
  }

  lemma ApplyMoves(s: State, loadedRows: seq<Account>, first: Environment, env: Environment)
    requires Inv(s) && FreshOk(loadedRows) && !Moved(s, env)
    ensures !Moved(Apply(s, loadedRows, first), env)
  {
    var base := |s.heap|;
    var s1 := s.(heap := s.heap + loadedRows);
    var second := if first == Demo then Live else Demo;
    GrowMoves(s, loadedRows, env);
    BothLoadable(s, loadedRows, first);
    var d1, d2 := Desired(loadedRows, base, first), Desired(loadedRows, base, second);
    ApplyEnvMoves(s1, first, d1, env);
    ApplyEnvMoves(ApplyEnv(s1, first, d1), second, d2, env);
  }

  lemma RefreshMoves(s: State, ref: nat, expires: int, env: Environment)
    requires Sound(s) && ref < |s.heap| && !Moved(s, env)
    ensures Moved(Refresh(s, ref, expires), env) <==>
              env in s.sessions && ref in s.sessions[env].accounts && Freshness(s.heap[ref]) != expires
  {
    var t := Refresh(s, ref, expires);
    if env in s.sessions {
      var refs := s.sessions[env].accounts;
      var was, now := Triples(s.heap, refs), Triples(t.heap, refs);
      assert forall i :: 0 <= i < |refs| && refs[i] != ref ==> now[i] == was[i];
      if i :| 0 <= i < |refs| && refs[i] == ref {
        assert now[i] == was[i] <==> Freshness(s.heap[ref]) == expires;
      }
      if Freshness(s.heap[ref]) == expires || ref !in refs { assert now == was; }
    }
  }

  /**
   * What moves a session from its fingerprint: a refresh of one of its accounts to another expiry, and nothing else.
   */
  lemma MovedBy(s: State, e: Event, env: Environment)
    requires Inv(s) && PlainRows(e) && !Moved(s, env)
    ensures Moved(Step(s, e), env) <==>
      && e.Refreshed? && env in s.sessions && e.ref in s.sessions[env].accounts
      && e.ref < |s.heap| && Freshness(s.heap[e.ref]) != e.expires
  {
    match e
    case Reconcile(rows, first) =>
      KeepsOneFreshest(rows);
      ApplyMoves(s, Deduped(rows), first, env);
    case Refreshed(ref, expires) => if ref < |s.heap| { RefreshMoves(s, ref, expires, env); }
    case Connected(_) =>
    case Destroy =>
  }

  lemma {:induction false} StaysInStep(s: State, es: seq<Event>, env: Environment)
    requires Inv(s) && !Moved(s, env) && forall e :: e in es ==> PlainRows(e) && !e.Refreshed?
    ensures Inv(Run(s, es)) && !Moved(Run(s, es), env)
    decreases |es|
  {
    if es != [] {
      assert es[0] in es;
      MovedBy(s, es[0], env);
      StepKeeps(s, es[0]);
      StaysInStep(Step(s, es[0]), es[1..], env);
    }
  }

  /**
   * So the worker's own refreshes are not mistaken for outside changes: after a completed connect, through
   * any reconciles and connects without another refresh, rows that carry the refreshed expiries leave the
   * session alone.
   */
  lemma ConnectSettles(s: State, env: Environment, es: seq<Event>, loadedRows: seq<Account>, first: Environment)
    requires Inv(s) && FreshOk(loadedRows) && forall e :: e in es ==> PlainRows(e) && !e.Refreshed?
    requires Mirrored(Run(Resync(s, env), es), env, loadedRows)
    ensures var t := Run(Resync(s, env), es); var u := Apply(t, loadedRows, first);
      env in u.sessions && u.sessions[env] == t.sessions[env]
  {
    ResyncKeeps(s, env);
    StaysInStep(Resync(s, env), es, env);
    SelfReconnectExactly(Run(Resync(s, env), es), loadedRows, first, env);
  }

  // ---- the manager's pool ----

  class AccountPool {
    var heap: seq<Account>
    var sessions: map<Environment, Session>
    var routing: map<Route, nat>

    function View(): State
      reads this
    {
      State(heap, sessions, routing)
    }

    ghost predicate Valid()
      reads this
    {
      Inv(View())
    }

    constructor ()
      ensures Valid() && View() == State([], map[], map[])
    {
      heap, sessions, routing := [], map[], map[];
    }

    method SetRouting(env: Environment, refs: seq<nat>)
      requires Refs(heap, refs)
      modifies this`routing
      ensures routing == SetRoutes(old(routing), heap, env, refs)
    {
      ghost var before := routing;
      for i := 0 to |refs|
        invariant routing == SetRoutes(before, heap, env, refs[..i])
      {
        assert refs[..i + 1][..i] == refs[..i];
        routing := routing[Route(env, heap[refs[i]].ctid) := refs[i]];
      }
      assert refs[..|refs|] == refs;
    }

    method ClearRouting(env: Environment, refs: seq<nat>)
      requires Refs(heap, refs)
      modifies this`routing
      ensures routing == ClearRoutes(old(routing), heap, env, refs)
    {
      ghost var before := routing;
      for i := 0 to |refs|
        invariant routing == ClearRoutes(before, heap, env, refs[..i])
      {
        assert refs[..i + 1][..i] == refs[..i];
        routing := routing - {Route(env, heap[refs[i]].ctid)};
      }
      assert refs[..|refs|] == refs;
    }

    /** One environment's turn of applyReconcile. */
    method ApplyEnvironment(env: Environment, desired: seq<nat>)
      requires Sound(View()) && Refs(heap, desired)
      modifies this`sessions, this`routing
      ensures View() == ApplyEnv(old(View()), env, desired)
    {
      if env !in sessions {
        if desired == [] { return; }
        sessions := sessions[env := Loaded(heap, desired)];
        SetRouting(env, desired);
        return;
      }
      var session := sessions[env];
      if desired == [] {
        ClearRouting(env, session.accounts);
        sessions := sessions - {env};
        return;
      }
      var signature := Signature(Triples(heap, desired));
      if signature == session.signature { return; }
      ClearRouting(env, session.accounts);
      sessions := sessions[env := Session(desired, signature, Triples(heap, desired))];
      SetRouting(env, desired);
    }

    /** A pass whose probe saw a change: load, drop duplicates, apply. */
    method ReconcileRows(loadedRows: seq<Account>)
      requires Valid() && PlainRows(Reconcile(loadedRows, Demo))
      modifies this
      ensures View() == Step(old(View()), Reconcile(loadedRows, Demo))
      ensures Valid()
    {
      StepKeeps(View(), Reconcile(loadedRows, Demo));
      var kept := DedupeByCtid(loadedRows);
      var base := |heap|;
      heap := heap + kept;
      ApplyEnvironment(Demo, Desired(kept, base, Demo));
      ApplyEnvironment(Live, Desired(kept, base, Live));
    }

    /** The end of connectEnv, when its attempt was not superseded. */
    method SyncSignature(env: Environment)
      requires Valid()
      modifies this`sessions
      ensures View() == Step(old(View()), Connected(env))
      ensures !Moved(View(), env)
      ensures Valid()
    {
      StepKeeps(View(), Connected(env));
      if env in sessions {
        var accounts := sessions[env].accounts;
        var loaded := Triples(heap, accounts);
        sessions := sessions[env := Session(accounts, Signature(loaded), loaded)];
      }
    }

    method RefreshToken(ref: nat, expires: int)
      requires Valid() && ref < |heap|
      modifies this`heap
      ensures View() == Step(old(View()), Refreshed(ref, expires))
      ensures Valid()
    {
      StepKeeps(View(), Refreshed(ref, expires));
      heap := heap[ref := heap[ref].(expires := Some(expires))];
    }
  }
}
