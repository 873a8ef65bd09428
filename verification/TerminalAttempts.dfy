/**
 * MetaApi connection attempts: `open`, the session slots, the `opening` guard, the session close
 * handles and the cloud accounts, under free interleaving.
 *
 * JavaScript runs each stretch of code between two `await`s without interruption, so the protocol is
 * a state machine whose steps are those stretches. An attempt is named by the generation it drew; its
 * `Stage` is the `await` it is suspended at.
 */
module TerminalAttempts {

  type Account = string
  type CloudId = string

  /** An entry of the `sessions` map; `live` tells a stream-backed close handle from the placeholder. */
  datatype Slot = Slot(generation: nat, live: bool)

  datatype Stage =
    | Getting                  // getAccount(stored id)
    | Looking                  // the lookup by deterministic name
    | Adopting                 // persisting the adopted id
    | Creating(made: bool)     // createAccount; `made` once the cloud account exists
    | Persisting               // persisting the created id
    | Connecting               // deploy / waitConnected
    | Syncing                  // RPC connect, synchronize, backfill
    | DroppingRpc              // abandoned: rpc.close()
    | Subscribing              // stream connect, synchronize
    | DroppingStream           // superseded at the last gate: stream.close()
    | DroppingBoth             // superseded at the last gate: rpc.close()
    | Saving                   // published; the success row write
    | CatchingStream           // failure path: stream.close()
    | CatchingRpc              // failure path: rpc.close()
    | Recovering               // handleFailure

  datatype Attempt = Attempt(account: Account, stage: Stage)

  datatype Conn = Unopened | Opened | Closed

  /**
   * What happened to the connections of one generation. `dropped`: a session close handle rejected at
   * stream.close(), before it reached rpc.close().
   */
  datatype Link = Link(account: Account, rpc: Conn, stream: Conn, dropped: bool)

  /**
   * `closers` counts the running close handles of each generation that await stream.close(). What becomes
   * of the rpc.close() they call next changes nothing.
   */
  datatype State = State(
    stopped: bool,
    generation: nat,
    opening: set<Account>,
    sessions: map<Account, Slot>,
    attempts: map<nat, Attempt>,
    links: map<nat, Link>,
    closers: map<nat, nat>,
    cloud: map<CloudId, Account>)

  datatype Event =
    | Open(account: Account, hasId: bool)      // from reconcile or a retry timer, with any row snapshot
    | CreateTakesEffect(gen: nat, id: CloudId) // the cloud side of a createAccount in flight
    | Settle(gen: nat, ok: bool)               // the call an attempt awaits resolves or rejects
    | TakeSession(account: Account)            // teardown, or the row left the selection
    | CloserSettles(gen: nat, ok: bool)        // a close handle's stream.close() resolves or rejects
    | CloudRemoved(id: CloudId)                // a teardown's remove(), or an external deletion
    | Shutdown
    | ShutdownDone
    | Crash

  function Fresh(cloud: map<CloudId, Account>): State {
    State(false, 0, {}, map[], map[], map[], map[], cloud)
  }

  // ---- the stretches of code between awaits ----

  predicate Attempting(s: State, g: nat) {
    g in s.attempts && g in s.links
  }

  predicate Stale(s: State, g: nat)
    requires Attempting(s, g)
  {
    var a := s.attempts[g].account;
    a !in s.sessions || s.sessions[a].generation != g
  }

  predicate Abandon(s: State, g: nat)
    requires Attempting(s, g)
  {
    s.stopped || Stale(s, g)
  }

  predicate Owned(s: State, account: Account) {
    exists id :: id in s.cloud && s.cloud[id] == account
  }

  datatype SlotChange = Keep | Publish | Delete

  /** What one stretch of an attempt does before it suspends again, or returns through `finally`. */
  datatype Outcome =
    | Waits
    | Returns
    | Goes(stage: Stage, rpc: Conn, stream: Conn, slot: SlotChange)

  function To(l: Link, stage: Stage): Outcome {
    Goes(stage, l.rpc, l.stream, Keep)
  }

  /** The `catch` block up to its first await. */
  function Catch(l: Link): Outcome {
    if l.stream != Unopened then Goes(CatchingStream, l.rpc, Closed, Delete)
    else if l.rpc != Unopened then Goes(CatchingRpc, Closed, l.stream, Delete)
    else Goes(Recovering, l.rpc, l.stream, Delete)
  }

  /** The awaited call resolved. `abandon`: a newer generation owns the account, or we are shutting down. */
  function Continue(stage: Stage, abandon: bool, owned: bool, l: Link): Outcome {
    match stage
    case Looking => To(l, if owned then Adopting else Creating(false))
    case Creating(made) => if made then To(l, Persisting) else Waits
    case Getting => if abandon then Returns else To(l, Connecting)
    case Adopting => if abandon then Returns else To(l, Connecting)
    case Persisting => if abandon then Returns else To(l, Connecting)
    case Connecting => if abandon then Returns else Goes(Syncing, Opened, l.stream, Keep)
    case Syncing =>
      if abandon then Goes(DroppingRpc, Closed, l.stream, Keep) else Goes(Subscribing, l.rpc, Opened, Keep)
    case Subscribing =>
      if abandon then Goes(DroppingStream, l.rpc, Closed, Keep) else Goes(Saving, l.rpc, l.stream, Publish)
    case DroppingStream => Goes(DroppingBoth, Closed, l.stream, Keep)
    case CatchingStream => if l.rpc != Unopened then Goes(CatchingRpc, Closed, l.stream, Keep) else To(l, Recovering)
    case CatchingRpc => To(l, Recovering)
    case _ => Returns // DroppingRpc, DroppingBoth, Saving, Recovering
  }

  /** The best-effort closes and handleFailure run outside the try block. */
  predicate Recoverable(stage: Stage) {
    stage !in {CatchingStream, CatchingRpc, Recovering}
  }

  function After(stage: Stage, ok: bool, abandon: bool, owned: bool, l: Link): Outcome {
    if !ok && Recoverable(stage) then Catch(l) else Continue(stage, abandon, owned, l)
  }

  function Commit(s: State, g: nat, o: Outcome): State
    requires Attempting(s, g)
  {
    var a := s.attempts[g].account;
    match o
    case Waits => s
    case Returns => s.(attempts := s.attempts - {g}, opening := s.opening - {a})
    case Goes(stage, rpc, stream, slot) =>
      s.(attempts := s.attempts[g := Attempt(a, stage)],
         links := s.links[g := s.links[g].(rpc := rpc, stream := stream)],
         sessions := match slot
           case Keep => s.sessions
           case Publish => s.sessions[a := Slot(g, true)]
           case Delete => s.sessions - {a})
  }

  function NextOutcome(s: State, g: nat, ok: bool): Outcome
    requires Attempting(s, g)
  {
    After(s.attempts[g].stage, ok, Abandon(s, g), Owned(s, s.attempts[g].account), s.links[g])
  }

  function Resume(s: State, g: nat, ok: bool): State
    requires Attempting(s, g)
  {
    Commit(s, g, NextOutcome(s, g, ok))
  }

  function OpenAttempt(s: State, account: Account, hasId: bool): State {
    if s.stopped || account in s.sessions || account in s.opening then s
    else
      var g := s.generation + 1;
      s.(generation := g,
         opening := s.opening + {account},
         sessions := s.sessions[account := Slot(g, false)],
         links := s.links[g := Link(account, Unopened, Unopened, false)],
         attempts := s.attempts[g := Attempt(account, if hasId then Getting else Looking)])
  }

  function CreateEffect(s: State, g: nat, id: CloudId): State {
    if Attempting(s, g) && s.attempts[g].stage == Creating(false) && id !in s.cloud then
      s.(attempts := s.attempts[g := s.attempts[g].(stage := Creating(true))],
         cloud := s.cloud[id := s.attempts[g].account])
    else s
  }

  /** Remove a session from the map and start its close handle. */
  function Take(s: State, account: Account): State {
    if account !in s.sessions then s
    else
      var Slot(g, live) := s.sessions[account];
      var s1 := s.(sessions := s.sessions - {account});
      if live && g in s.links then
        s1.(links := s.links[g := s.links[g].(stream := Closed)], closers := s.closers[g := Handles(s, g) + 1])
      else s1
  }

  /** How many close handles of a generation await stream.close(). */
  function Handles(s: State, g: nat): nat {
    if g in s.closers then s.closers[g] else 0
  }

  /** One close handle fewer. */
  function Fewer(s: State, g: nat): map<nat, nat> {
    if Handles(s, g) <= 1 then s.closers - {g} else s.closers[g := Handles(s, g) - 1]
  }

  /** The handle closes the RPC connection next; after a rejection it never gets there. */
  function CloserStep(s: State, g: nat, ok: bool): State {
    if Handles(s, g) == 0 || g !in s.links then s
    else if ok then s.(links := s.links[g := s.links[g].(rpc := Closed)], closers := Fewer(s, g))
    else s.(links := s.links[g := s.links[g].(dropped := true)], closers := Fewer(s, g))
  }

  /** Shutdown starts every live close handle. */
  function Stop(s: State): State {
    s.(stopped := true,
       links := map g | g in s.links :: if SessionOwns(s, g) then s.links[g].(stream := Closed) else s.links[g],
       closers := s.closers + map g | g in s.links && SessionOwns(s, g) :: Handles(s, g) + 1)
  }

  /** The map is emptied once all those handles have resolved; a rejection leaves it as it is. */
  predicate AllClosed(s: State) {
    s.stopped && forall g :: g in s.links && SessionOwns(s, g) ==> s.links[g].rpc == Closed
  }

  function Step(s: State, e: Event): State {
    match e
    case Open(account, hasId) => OpenAttempt(s, account, hasId)
    case CreateTakesEffect(g, id) => CreateEffect(s, g, id)
    case Settle(g, ok) => if Attempting(s, g) then Resume(s, g, ok) else s
    case TakeSession(account) => Take(s, account)
    case CloserSettles(g, ok) => CloserStep(s, g, ok)
    case CloudRemoved(id) => s.(cloud := s.cloud - {id})
    case Shutdown => Stop(s)
    case ShutdownDone => if AllClosed(s) then s.(sessions := map[]) else s
    case Crash => Fresh(s.cloud)
  }

  function Run(s: State, es: seq<Event>): State
    decreases |es|
  {
    if es == [] then s else Run(Step(s, es[0]), es[1..])
  }

  // ---- invariants ----

  /** Generations and accounts of attempts in flight; no account has two. */
  ghost predicate Flight(s: State) {
    && (forall g :: g in s.links ==> g <= s.generation)
    && (forall g :: g in s.attempts ==>
          g in s.links && s.attempts[g].account == s.links[g].account && s.attempts[g].account in s.opening)
    && (forall g, h :: g in s.attempts && h in s.attempts && s.attempts[g].account == s.attempts[h].account ==> g == h)
  }

  /** A slot belongs to its own account, and during an attempt to that attempt. */
  ghost predicate Slots(s: State) {
    && (forall a :: a in s.sessions ==>
        s.sessions[a].generation in s.links && s.links[s.sessions[a].generation].account == a)
    && (forall g :: g in s.attempts && s.attempts[g].account in s.sessions ==>
          s.sessions[s.attempts[g].account].generation == g)
  }

  /** What an attempt has opened and closed, stage by stage. */
  predicate StageFits(stage: Stage, l: Link) {
    match stage
    case Syncing => l.rpc == Opened && l.stream == Unopened
    case DroppingRpc => l.rpc == Closed && l.stream == Unopened
    case Subscribing => l.rpc == Opened && l.stream == Opened
    case DroppingStream => l.rpc == Opened && l.stream == Closed
    case DroppingBoth => l.rpc == Closed && l.stream == Closed
    case Saving => l.rpc != Unopened && l.stream != Unopened
    case CatchingStream => l.rpc != Unopened && l.stream == Closed
    case CatchingRpc => l.rpc == Closed && l.stream != Opened
    case Recovering => l.rpc != Opened && l.stream != Opened
    case _ => l.rpc == Unopened && l.stream == Unopened
  }

  /** The stored session handle owns the connections of generation `g`. */
  predicate SessionOwns(s: State, g: nat) {
    g in s.links && s.links[g].account in s.sessions && s.sessions[s.links[g].account] == Slot(g, true)
  }

  predicate AttemptHoldsRpc(s: State, g: nat) {
    g in s.attempts && s.attempts[g].stage in {Syncing, Subscribing, DroppingStream, CatchingStream}
  }

  predicate AttemptHoldsStream(s: State, g: nat) {
    g in s.attempts && s.attempts[g].stage == Subscribing
  }

  predicate CloserHoldsRpc(s: State, g: nat) {
    Handles(s, g) > 0
  }

  /** The stages from publication on. */
  predicate Late(stage: Stage) {
    stage in {Saving, CatchingStream, CatchingRpc, Recovering}
  }

  /** Every connection of generation `g` is closed or in somebody's hands. */
  predicate Accounted(s: State, g: nat)
    requires g in s.links
  {
    && (s.links[g].rpc == Opened ==>
          AttemptHoldsRpc(s, g) || SessionOwns(s, g) || CloserHoldsRpc(s, g) || s.links[g].dropped)
    && (s.links[g].stream == Opened ==> AttemptHoldsStream(s, g) || SessionOwns(s, g))
    && (g in s.attempts ==> StageFits(s.attempts[g].stage, s.links[g]))
    && (SessionOwns(s, g) && g in s.attempts ==> s.attempts[g].stage == Saving)
    && (SessionOwns(s, g) || g in s.closers ==>
          && s.links[g].rpc != Unopened && s.links[g].stream != Unopened
          && (g in s.attempts ==> Late(s.attempts[g].stage)))
  }

  /** Once shutdown began, a live handle of generation `g` is being closed. */
  predicate Drained(s: State, g: nat)
    requires g in s.links
  {
    s.stopped && SessionOwns(s, g) ==>
      s.links[g].stream == Closed && (s.links[g].rpc == Closed || CloserHoldsRpc(s, g) || s.links[g].dropped)
  }

  ghost predicate Links(s: State) {
    && (forall g :: g in s.links ==> Accounted(s, g) && Drained(s, g))
    && (forall g :: g in s.closers ==> g in s.links)
  }

  /** At most one cloud account per trading account; a create that has not taken effect has a clear field. */
  ghost predicate OneCloudAccount(s: State) {
    && (forall i, j :: i in s.cloud && j in s.cloud && s.cloud[i] == s.cloud[j] ==> i == j)
    && (forall g, i :: g in s.attempts && s.attempts[g].stage == Creating(false) && i in s.cloud ==>
          s.cloud[i] != s.attempts[g].account)
  }

  ghost predicate Inv(s: State) {
    Flight(s) && Slots(s) && Links(s) && OneCloudAccount(s)
  }

  // ---- every step keeps each invariant ----

  lemma FlightCommits(s: State, g: nat, o: Outcome)
    requires Flight(s) && Attempting(s, g)
    ensures Flight(Commit(s, g, o))
  {
  }

  lemma SlotsCommits(s: State, g: nat, o: Outcome)
    requires Flight(s) && Slots(s) && Attempting(s, g)
    ensures Slots(Commit(s, g, o))
  {
  }

  /** An outcome keeps the attempt's own accounts straight. */
  predicate Balanced(stage: Stage, l: Link, o: Outcome) {
    match o
    case Waits => true
    case Returns => (l.rpc != Opened && l.stream != Opened) || stage == Saving
    case Goes(next, rpc, stream, slot) =>
      && StageFits(next, Link(l.account, rpc, stream, l.dropped))
      && (slot == Publish <==> next == Saving)
      && (Late(stage) ==> Late(next) && next != Saving)
      && (l.rpc != Unopened ==> rpc != Unopened)
      && (l.stream != Unopened ==> stream != Unopened)
      && (stage == Saving ==> slot == Delete)
      && (rpc == Opened ==> next in {Syncing, Subscribing, DroppingStream, CatchingStream, Saving})
      && (stream == Opened ==> next in {Subscribing, Saving})
  }

  lemma OutcomeBalanced(stage: Stage, ok: bool, abandon: bool, owned: bool, l: Link)
    requires StageFits(stage, l)
    ensures Balanced(stage, l, After(stage, ok, abandon, owned, l))
  {
  }

  /** Two states agree on everything the accounts of generation `k` depend on. */
  predicate Agree(s: State, t: State, k: nat)
    requires k in s.links
  {
    && k in t.links && t.links[k] == s.links[k] && t.stopped == s.stopped
    && (k in t.attempts <==> k in s.attempts) && (k in s.attempts ==> t.attempts[k] == s.attempts[k])
    && SessionOwns(s, k) == SessionOwns(t, k)
    && (k in t.closers <==> k in s.closers) && (k in s.closers ==> t.closers[k] == s.closers[k])
  }

  lemma AgreeKeeps(s: State, t: State, k: nat)
    requires k in s.links && Agree(s, t, k) && Accounted(s, k) && Drained(s, k)
    ensures Accounted(t, k) && Drained(t, k)
  {
  }

  lemma LinksAgree(s: State, t: State, g: nat)
    requires Links(s) && t.links.Keys == s.links.Keys && (forall k :: k in t.closers ==> k in t.links)
    requires forall k :: k in s.links && k != g ==> Agree(s, t, k)
    requires g in t.links ==> Accounted(t, g) && Drained(t, g)
    ensures Links(t)
  {
    forall k | k in t.links && k != g ensures Accounted(t, k) && Drained(t, k) {
      AgreeKeeps(s, t, k);
    }
  }

  lemma CommitAccounts(s: State, g: nat, o: Outcome)
    requires Flight(s) && Slots(s) && Attempting(s, g) && Accounted(s, g) && Drained(s, g)
    requires Balanced(s.attempts[g].stage, s.links[g], o)
    requires o.Goes? && o.slot == Publish ==> !s.stopped
    ensures Accounted(Commit(s, g, o), g) && Drained(Commit(s, g, o), g)
  {
  }

  lemma LinksCommits(s: State, g: nat, o: Outcome)
    requires Flight(s) && Slots(s) && Links(s) && Attempting(s, g)
    requires Balanced(s.attempts[g].stage, s.links[g], o)
    requires o.Goes? && o.slot == Publish ==> !s.stopped
    ensures Links(Commit(s, g, o))
  {
    CommitAccounts(s, g, o);
    var t := Commit(s, g, o);
    forall k | k in s.links && k != g ensures Agree(s, t, k) {}
    LinksAgree(s, t, g);
  }

  lemma NextBalanced(s: State, g: nat, ok: bool)
    requires Attempting(s, g) && Accounted(s, g)
    ensures Balanced(s.attempts[g].stage, s.links[g], NextOutcome(s, g, ok))
    ensures NextOutcome(s, g, ok).Goes? && NextOutcome(s, g, ok).slot == Publish ==> !s.stopped
    ensures NextOutcome(s, g, ok).Goes? && NextOutcome(s, g, ok).stage == Creating(false) ==>
              !Owned(s, s.attempts[g].account) || s.attempts[g].stage == Creating(false)
  {
    OutcomeBalanced(s.attempts[g].stage, ok, Abandon(s, g), Owned(s, s.attempts[g].account), s.links[g]);
  }

  lemma OneCloudCommits(s: State, g: nat, o: Outcome)
    requires Flight(s) && OneCloudAccount(s) && Attempting(s, g)
    requires o.Goes? && o.stage == Creating(false) ==>
      !Owned(s, s.attempts[g].account) || s.attempts[g].stage == Creating(false)
    ensures OneCloudAccount(Commit(s, g, o))
  {
  }

  lemma ResumeKeeps(s: State, g: nat, ok: bool)
    requires Inv(s) && Attempting(s, g)
    ensures Inv(Resume(s, g, ok))
  {
    var o := NextOutcome(s, g, ok);
    NextBalanced(s, g, ok);
    FlightCommits(s, g, o);
    SlotsCommits(s, g, o);
    LinksCommits(s, g, o);
    OneCloudCommits(s, g, o);
  }

  lemma OpenAgrees(s: State, account: Account, hasId: bool, k: nat)
    requires Flight(s) && Slots(s) && k in s.links
    ensures Agree(s, OpenAttempt(s, account, hasId), k)
  {
  }

  lemma OpenLinks(s: State, account: Account, hasId: bool)
    requires Flight(s) && Slots(s) && Links(s)
    ensures Links(OpenAttempt(s, account, hasId))
  {
    var t := OpenAttempt(s, account, hasId);
    forall k | k in t.links ensures Accounted(t, k) && Drained(t, k) {
      if k in s.links {
        OpenAgrees(s, account, hasId, k);
        AgreeKeeps(s, t, k);
      }
    }
  }

  lemma OpenFlight(s: State, account: Account, hasId: bool)
    requires Flight(s) && Slots(s)
    ensures Flight(OpenAttempt(s, account, hasId)) && Slots(OpenAttempt(s, account, hasId))
  {
  }

  lemma OpenCloud(s: State, account: Account, hasId: bool)
    requires Flight(s) && OneCloudAccount(s)
    ensures OneCloudAccount(OpenAttempt(s, account, hasId))
  {
  }

  lemma OpenRest(s: State, account: Account, hasId: bool)
    requires Flight(s) && Slots(s) && OneCloudAccount(s)
    ensures var t := OpenAttempt(s, account, hasId); Flight(t) && Slots(t) && OneCloudAccount(t)
  {
    OpenFlight(s, account, hasId);
    OpenCloud(s, account, hasId);
  }

  lemma OpenKeeps(s: State, account: Account, hasId: bool)
    requires Inv(s)
    ensures Inv(OpenAttempt(s, account, hasId))
  {
    OpenLinks(s, account, hasId);
    OpenRest(s, account, hasId);
  }

  lemma CreateEffectLinks(s: State, g: nat, id: CloudId)
    requires Links(s)
    ensures Links(CreateEffect(s, g, id))
  {
    var t := CreateEffect(s, g, id);
    if t != s {
      assert Accounted(s, g) && Drained(s, g);
      forall k | k in s.links && k != g ensures Agree(s, t, k) {}
      LinksAgree(s, t, g);
    }
  }

  lemma CreateEffectRest(s: State, g: nat, id: CloudId)
    requires Flight(s) && Slots(s) && OneCloudAccount(s)
    ensures var t := CreateEffect(s, g, id); Flight(t) && Slots(t) && OneCloudAccount(t)
  {
  }

  lemma CreateEffectKeeps(s: State, g: nat, id: CloudId)
    requires Inv(s)
    ensures Inv(CreateEffect(s, g, id))
  {
    CreateEffectLinks(s, g, id);
    CreateEffectRest(s, g, id);
  }

  lemma RestAgree(s: State, t: State)
    requires Flight(s) && Slots(s) && OneCloudAccount(s)
    requires t.generation == s.generation && t.opening == s.opening && t.attempts == s.attempts && t.cloud == s.cloud
    requires forall a :: a in t.sessions ==> a in s.sessions && t.sessions[a] == s.sessions[a]
    requires t.links.Keys == s.links.Keys && forall k :: k in s.links ==> t.links[k].account == s.links[k].account
    ensures Flight(t) && Slots(t) && OneCloudAccount(t)
  {
  }

  lemma TakeAccounts(s: State, account: Account)
    requires Slots(s) && Links(s) && account in s.sessions
    ensures var t := Take(s, account); var g := s.sessions[account].generation;
      g in t.links && Accounted(t, g) && Drained(t, g)
  {
    var g := s.sessions[account].generation;
    assert Accounted(s, g) && Drained(s, g);
  }

  lemma TakeAgrees(s: State, account: Account, k: nat)
    requires Slots(s) && account in s.sessions && k in s.links && k != s.sessions[account].generation
    ensures Agree(s, Take(s, account), k)
  {
  }

  lemma TakeLinks(s: State, account: Account)
    requires Flight(s) && Slots(s) && Links(s)
    ensures Links(Take(s, account))
  {
    var t := Take(s, account);
    if account in s.sessions {
      var g := s.sessions[account].generation;
      TakeAccounts(s, account);
      forall k | k in s.links && k != g ensures Agree(s, t, k) { TakeAgrees(s, account, k); }
      LinksAgree(s, t, g);
    }
  }

  lemma TakeFrame(s: State, account: Account)
    ensures var t := Take(s, account);
      && t == s.(sessions := s.sessions - {account}, links := t.links, closers := t.closers)
      && t.links.Keys == s.links.Keys && forall k :: k in s.links ==> t.links[k].account == s.links[k].account
  {
  }

  lemma TakeRest(s: State, account: Account)
    requires Flight(s) && Slots(s) && OneCloudAccount(s)
    ensures var t := Take(s, account); Flight(t) && Slots(t) && OneCloudAccount(t)
  {
    TakeFrame(s, account);
    RestAgree(s, Take(s, account));
  }

  lemma TakeKeeps(s: State, account: Account)
    requires Inv(s)
    ensures Inv(Take(s, account))
  {
    TakeLinks(s, account);
    TakeRest(s, account);
  }

  lemma CloserAccounts(s: State, g: nat, ok: bool)
    requires g in s.links && g in s.closers && Accounted(s, g) && Drained(s, g)
    ensures var t := CloserStep(s, g, ok); g in t.links && Accounted(t, g) && Drained(t, g)
  {
  }

  lemma CloserAgrees(s: State, g: nat, ok: bool, k: nat)
    requires k in s.links && k != g
    ensures Agree(s, CloserStep(s, g, ok), k)
  {
  }

  lemma CloserLinks(s: State, g: nat, ok: bool)
    requires Links(s)
    ensures Links(CloserStep(s, g, ok))
  {
    var t := CloserStep(s, g, ok);
    if g in s.closers && g in s.links {
      assert Accounted(s, g) && Drained(s, g);
      CloserAccounts(s, g, ok);
      forall k | k in s.links && k != g ensures Agree(s, t, k) { CloserAgrees(s, g, ok, k); }
      LinksAgree(s, t, g);
    }
  }

  lemma CloserRest(s: State, g: nat, ok: bool)
    requires Flight(s) && Slots(s) && OneCloudAccount(s)
    ensures var t := CloserStep(s, g, ok); Flight(t) && Slots(t) && OneCloudAccount(t)
  {
    RestAgree(s, CloserStep(s, g, ok));
  }

  lemma CloserKeeps(s: State, g: nat, ok: bool)
    requires Inv(s)
    ensures Inv(CloserStep(s, g, ok))
  {
    CloserLinks(s, g, ok);
    CloserRest(s, g, ok);
  }

  lemma StopKeeps(s: State)
    requires Inv(s)
    ensures Inv(Stop(s))
  {
    var t := Stop(s);
    forall k | k in s.links ensures Accounted(t, k) && Drained(t, k) {
      assert Accounted(s, k) && Drained(s, k);
    }
  }

  lemma StepKeeps(s: State, e: Event)
    requires Inv(s)
    ensures Inv(Step(s, e))
  {
    match e {
      case Open(account, hasId) => OpenKeeps(s, account, hasId);
      case CreateTakesEffect(g, id) => CreateEffectKeeps(s, g, id);
      case Settle(g, ok) => if Attempting(s, g) { ResumeKeeps(s, g, ok); }
      case TakeSession(account) => TakeKeeps(s, account);
      case CloserSettles(g, ok) => CloserKeeps(s, g, ok);
      case Shutdown => StopKeeps(s);
      case _ => PlainKeeps(s, e);
    }
  }

  lemma RemovedKeeps(s: State, id: CloudId)
    requires Inv(s)
    ensures Inv(s.(cloud := s.cloud - {id}))
  {
    var t := s.(cloud := s.cloud - {id});
    forall k | k in s.links ensures Agree(s, t, k) {}
    forall k | k in t.links ensures Accounted(t, k) && Drained(t, k) { AgreeKeeps(s, t, k); }
  }

  lemma EmptiedKeeps(s: State)
    requires Inv(s) && AllClosed(s)
    ensures Inv(s.(sessions := map[]))
  {
    var t := s.(sessions := map[]);
    RestAgree(s, t);
    forall k | k in t.links ensures Accounted(t, k) && Drained(t, k) { assert Accounted(s, k) && Drained(s, k); }
  }

  lemma PlainKeeps(s: State, e: Event)
    requires Inv(s) && (e.CloudRemoved? || e.ShutdownDone? || e.Crash?)
    ensures Inv(Step(s, e))
  {
    match e
    case CloudRemoved(id) => RemovedKeeps(s, id);
    case ShutdownDone => if AllClosed(s) { EmptiedKeeps(s); }
    case Crash =>
  }

  lemma {:induction false} RunKeeps(s: State, es: seq<Event>)
    requires Inv(s)
    ensures Inv(Run(s, es))
    decreases |es|
  {
    if es != [] {
      StepKeeps(s, es[0]);
      RunKeeps(Step(s, es[0]), es[1..]);
    }
  }

  // ---- what holds in every reachable state ----

  ghost predicate UniqueOwners(cloud: map<CloudId, Account>) {
    forall i, j :: i in cloud && j in cloud && cloud[i] == cloud[j] ==> i == j
  }

  /** Nobody is left who will close, or hand over, the connections of an ended attempt. */
  predicate Settled(s: State, g: nat)
    requires g in s.links
  {
    && (s.links[g].rpc != Opened || SessionOwns(s, g) || CloserHoldsRpc(s, g) || s.links[g].dropped)
    && (s.links[g].stream != Opened || SessionOwns(s, g))
  }

  /** While an open is in flight it is the only one, and its slot is absent or its own. */
  lemma OneFlightPerAccount(cloud: map<CloudId, Account>, es: seq<Event>, g: nat, h: nat)
    requires UniqueOwners(cloud)
    requires var s := Run(Fresh(cloud), es); g in s.attempts && h in s.attempts
    ensures var s := Run(Fresh(cloud), es);
      && (s.attempts[g].account == s.attempts[h].account ==> g == h)
      && s.attempts[g].account in s.opening
      && (s.attempts[g].account in s.sessions ==> s.sessions[s.attempts[g].account].generation == g)
  {
    RunKeeps(Fresh(cloud), es);
  }

  /** When an attempt has ended, everything it opened is closed, owned by the session, or being closed. */
  lemma EndedAttemptsLeaveNothing(cloud: map<CloudId, Account>, es: seq<Event>, g: nat)
    requires UniqueOwners(cloud)
    requires var s := Run(Fresh(cloud), es); g in s.links && g !in s.attempts
    ensures Settled(Run(Fresh(cloud), es), g)
  {
    RunKeeps(Fresh(cloud), es);
    assert Accounted(Run(Fresh(cloud), es), g);
  }

  /** What may take a live session of generation `g` out of the map: somebody who closes its connections. */
  predicate TakenToClose(t: State, e: Event, a: Account, g: nat) {
    || (e == TakeSession(a) && CloserHoldsRpc(t, g))
    || (e == Settle(g, false) && g in t.attempts && t.attempts[g].stage == CatchingStream)
    || (e == ShutdownDone && g in t.links && t.links[g].rpc == Closed)
  }

  /**
   * A live close handle is never overwritten. It leaves the map only by being run, when the success write of
   * its own attempt failed and the catch block closes the connections itself, or at the end of a shutdown
   * that ran it.
   */
  lemma LiveHandleNeverOverwritten(s: State, e: Event, a: Account)
    requires Inv(s) && e != Crash && a in s.sessions && s.sessions[a].live
    ensures var t := Step(s, e); var g := s.sessions[a].generation;
      if a in t.sessions then t.sessions[a] == s.sessions[a]
      else g in t.links && t.links[g].stream == Closed && TakenToClose(t, e, a, g)
  {
    var g := s.sessions[a].generation;
    assert SessionOwns(s, g) && Accounted(s, g) && Drained(s, g);
    match e
    case Settle(h, ok) => if Attempting(s, h) { LiveHandleSurvivesAttempt(s, h, ok, a); }
    case TakeSession(account) => LiveHandleTaken(s, account, a);
    case _ =>
  }

  lemma LiveHandleTaken(s: State, account: Account, a: Account)
    requires Inv(s) && a in s.sessions && s.sessions[a].live
    ensures var t := Take(s, account); var g := s.sessions[a].generation;
      if a in t.sessions then t.sessions[a] == s.sessions[a]
      else g in t.links && t.links[g].stream == Closed && TakenToClose(t, TakeSession(account), a, g)
  {
  }

  lemma LiveHandleSurvivesAttempt(s: State, h: nat, ok: bool, a: Account)
    requires Inv(s) && Attempting(s, h) && a in s.sessions && s.sessions[a].live
    ensures var t := Resume(s, h, ok); var g := s.sessions[a].generation;
      if a in t.sessions then t.sessions[a] == s.sessions[a]
      else g in t.links && t.links[g].stream == Closed && TakenToClose(t, Settle(h, ok), a, g)
  {
    assert SessionOwns(s, s.sessions[a].generation) && Accounted(s, s.sessions[a].generation) && Accounted(s, h);
    NextBalanced(s, h, ok);
  }

  /** At most one cloud account per trading account, in every run, crashes and teardowns included. */
  lemma OneCloudAccountPerRow(cloud: map<CloudId, Account>, es: seq<Event>, i: CloudId, j: CloudId)
    requires UniqueOwners(cloud)
    requires var s := Run(Fresh(cloud), es); i in s.cloud && j in s.cloud && s.cloud[i] == s.cloud[j]
    ensures i == j
  {
    RunKeeps(Fresh(cloud), es);
  }

  /** A close handle is dropped only where the run made its stream.close() reject. */
  lemma {:induction false} DroppedHasCause(s: State, es: seq<Event>, g: nat)
    requires g in Run(s, es).links && Run(s, es).links[g].dropped
    requires g in s.links ==> !s.links[g].dropped
    ensures CloserSettles(g, false) in es
    decreases |es|
  {
    var t := Step(s, es[0]);
    if g in t.links && t.links[g].dropped {
      DroppedStep(s, es[0], g);
    } else {
      DroppedHasCause(t, es[1..], g);
    }
  }

  lemma DroppedStep(s: State, e: Event, g: nat)
    requires g in Step(s, e).links && Step(s, e).links[g].dropped
    requires g in s.links ==> !s.links[g].dropped
    ensures e == CloserSettles(g, false)
  {
  }

  /** So when no close handle rejects, an ended attempt with no session has both connections closed or closing. */
  lemma NoRejectionNoLeak(cloud: map<CloudId, Account>, es: seq<Event>, g: nat)
    requires UniqueOwners(cloud) && CloserSettles(g, false) !in es
    requires var s := Run(Fresh(cloud), es); g in s.links && g !in s.attempts && !SessionOwns(s, g)
    ensures var s := Run(Fresh(cloud), es);
      s.links[g].stream != Opened && (s.links[g].rpc != Opened || CloserHoldsRpc(s, g))
  {
    var s := Run(Fresh(cloud), es);
    EndedAttemptsLeaveNothing(cloud, es, g);
    if s.links[g].dropped { DroppedHasCause(Fresh(cloud), es, g); }
  }

  // ---- what an attempt achieves ----

  /** The attempt has gone on to another await; everything else is as it was. */
  predicate MovesTo(s: State, t: State, g: nat, stage: Stage, rpc: Conn, stream: Conn)
    requires Attempting(s, g)
  {
    && t == s.(attempts := s.attempts[g := s.attempts[g].(stage := stage)],
               links := s.links[g := s.links[g].(rpc := rpc, stream := stream)])
  }

  /** It has returned, and its account may be opened again. */
  predicate Ends(s: State, t: State, g: nat)
    requires Attempting(s, g)
  {
    t == s.(attempts := s.attempts - {g}, opening := s.opening - {s.attempts[g].account})
  }

  /** While nobody has taken its place an attempt goes from the lookup to the stream, one await after the other. */
  lemma GoesOn(s: State, g: nat)
    requires Attempting(s, g) && !Abandon(s, g) && Inv(s)
    ensures var t, stage, l := Step(s, Settle(g, true)), s.attempts[g].stage, s.links[g];
      && (stage == Looking ==>
            MovesTo(s, t, g, if Owned(s, s.attempts[g].account) then Adopting else Creating(false), l.rpc, l.stream))
      && (stage == Creating(true) ==> MovesTo(s, t, g, Persisting, l.rpc, l.stream))
      && (stage in {Getting, Adopting, Persisting} ==> MovesTo(s, t, g, Connecting, l.rpc, l.stream))
      && (stage == Connecting ==> MovesTo(s, t, g, Syncing, Opened, l.stream))
      && (stage == Syncing ==> MovesTo(s, t, g, Subscribing, l.rpc, Opened))
      && (stage == Saving ==> Ends(s, t, g))
  {
    assert s.links[g := s.links[g]] == s.links;
  }

  /** The stream is up: the session is published under the attempt's own generation, with its close handle. */
  lemma Publishes(s: State, g: nat)
    requires Attempting(s, g) && !Abandon(s, g) && Inv(s) && s.attempts[g].stage == Subscribing
    ensures var t, a := Step(s, Settle(g, true)), s.attempts[g].account;
      && t.sessions == s.sessions[a := Slot(g, true)] && g in t.links && t.links[g] == s.links[g]
      && g in t.attempts && t.attempts[g].stage == Saving && t.opening == s.opening
  {
  }

  /** Once somebody has, it ends at its next check, publishes nothing and closes what it opened. */
  lemma AbandonedEnds(s: State, g: nat)
    requires Attempting(s, g) && Abandon(s, g) && Inv(s)
    ensures var t, stage := Step(s, Settle(g, true)), s.attempts[g].stage;
      && t.sessions == s.sessions
      && (stage in {Getting, Adopting, Persisting, Connecting} ==> Ends(s, t, g))
      && (stage == Syncing ==> g in t.attempts && t.attempts[g].stage == DroppingRpc && t.links[g].rpc == Closed)
      && (stage == Subscribing ==>
            g in t.attempts && t.attempts[g].stage == DroppingStream && t.links[g].stream == Closed)
      && (stage == DroppingStream ==>
            g in t.attempts && t.attempts[g].stage == DroppingBoth && t.links[g].rpc == Closed)
      && (stage in {DroppingRpc, DroppingBoth} ==> Ends(s, t, g))
  {
    assert Accounted(s, g);
  }

  /** A failure frees the account's slot at once, so that it can be opened again when the attempt has ended. */
  lemma FailureFrees(s: State, g: nat)
    requires Attempting(s, g) && Recoverable(s.attempts[g].stage)
    ensures var t, a := Step(s, Settle(g, false)), s.attempts[g].account;
      && a !in t.sessions && g in t.attempts && t.attempts[g].stage in {CatchingStream, CatchingRpc, Recovering}
      && g in t.links && (t.attempts[g].stage == Recovering ==> t.links[g].rpc == Unopened == t.links[g].stream)
  {
  }

  /** The catch block closes the stream, then the RPC connection, and ends, whatever the closes answer. */
  lemma CatchEnds(s: State, g: nat, ok: bool)
    requires Attempting(s, g) && Inv(s)
    ensures var t, stage, l := Step(s, Settle(g, ok)), s.attempts[g].stage, s.links[g];
      && (stage == CatchingStream ==>
            if l.rpc != Unopened then MovesTo(s, t, g, CatchingRpc, Closed, l.stream)
            else MovesTo(s, t, g, Recovering, l.rpc, l.stream))
      && (stage == CatchingRpc ==> MovesTo(s, t, g, Recovering, l.rpc, l.stream))
      && (stage == Recovering ==> Ends(s, t, g))
  {
    assert s.links[g := s.links[g]] == s.links;
  }

  /** An account without a session, and with no open in flight, is opened. */
  lemma OpenBegins(s: State, account: Account, hasId: bool)
    requires !s.stopped && account !in s.sessions && account !in s.opening
    ensures var t, g := Step(s, Open(account, hasId)), s.generation + 1;
      && t.generation == g && account in t.opening && t.sessions == s.sessions[account := Slot(g, false)]
      && g in t.attempts && t.attempts[g] == Attempt(account, if hasId then Getting else Looking)
      && g in t.links && t.links[g] == Link(account, Unopened, Unopened, false)
  {
  }

  /** A close handle has run once: the RPC connection is closed, or left open for good. */
  lemma HandleSettles(s: State, g: nat, ok: bool)
    requires g in s.links && Handles(s, g) > 0
    ensures var t := Step(s, CloserSettles(g, ok));
      && Handles(t, g) == Handles(s, g) - 1 && (forall h :: h != g ==> Handles(t, h) == Handles(s, h))
      && t == s.(closers := t.closers, links := t.links)
      && t.links == s.links[g := if ok then s.links[g].(rpc := Closed) else s.links[g].(dropped := true)]
  {
  }

  // ---- exactly when a connection leaks ----

  /**
   * A connection of generation `g` is open, and neither an attempt, a session nor a close handle is left to close it.
   */
  predicate Leaked(s: State, g: nat) {
    && g in s.links && g !in s.attempts && !SessionOwns(s, g) && Handles(s, g) == 0
    && (s.links[g].rpc == Opened || s.links[g].stream == Opened)
  }

  /** Somebody's turn has come to give up the last hold on an open RPC connection. */
  predicate LosesRpc(s: State, e: Event, g: nat) {
    && g in s.links && s.links[g].rpc == Opened && !SessionOwns(s, g)
    && (|| (e == CloserSettles(g, false) && Handles(s, g) == 1 && g !in s.attempts)
        || (e == Settle(g, true) && Handles(s, g) == 0 && g in s.attempts && s.attempts[g].stage == Saving))
  }

  lemma AgreeLeaks(s: State, t: State, g: nat)
    requires g in s.links && Agree(s, t, g)
    ensures Leaked(t, g) <==> Leaked(s, g)
  {
  }

  /** A resumed attempt leaves its own connections behind only by returning from the success write. */
  lemma LeakOwn(s: State, g: nat, ok: bool)
    requires Inv(s) && Attempting(s, g)
    ensures Leaked(Resume(s, g, ok), g) <==> LosesRpc(s, Settle(g, ok), g)
  {
    assert Accounted(s, g);
    NextBalanced(s, g, ok);
    LeakCommit(s, g, NextOutcome(s, g, ok));
  }

  lemma LeakCommit(s: State, g: nat, o: Outcome)
    requires Flight(s) && Slots(s) && Attempting(s, g) && Accounted(s, g)
        && Balanced(s.attempts[g].stage, s.links[g], o)
    ensures Leaked(Commit(s, g, o), g) <==>
      o.Returns? && !SessionOwns(s, g) && Handles(s, g) == 0 && s.links[g].rpc == Opened
          && s.attempts[g].stage == Saving
  {
  }

  lemma CommitAgrees(s: State, h: nat, o: Outcome, g: nat)
    requires Flight(s) && Slots(s) && Attempting(s, h) && g in s.links && g != h
    requires o.Goes? && o.slot == Publish ==>
        s.links[h].account !in s.sessions || s.sessions[s.links[h].account].generation == h
    ensures Agree(s, Commit(s, h, o), g)
  {
  }

  lemma LeakSettle(s: State, h: nat, ok: bool, g: nat)
    requires Inv(s) && Attempting(s, h)
    ensures Leaked(Resume(s, h, ok), g) <==> LosesRpc(s, Settle(h, ok), g) || Leaked(s, g)
  {
    if g == h {
      LeakOwn(s, g, ok);
    } else if g in s.links {
      CommitAgrees(s, h, NextOutcome(s, h, ok), g);
      AgreeLeaks(s, Resume(s, h, ok), g);
    }
  }

  lemma LeakCloser(s: State, h: nat, ok: bool, g: nat)
    requires Inv(s)
    ensures Leaked(CloserStep(s, h, ok), g) <==> LosesRpc(s, CloserSettles(h, ok), g) || Leaked(s, g)
  {
    if g in s.links { assert Accounted(s, g); }
    if g in s.links && g != h {
      CloserAgrees(s, h, ok, g);
      AgreeLeaks(s, CloserStep(s, h, ok), g);
    }
  }

  lemma LeakTake(s: State, account: Account, g: nat)
    requires Inv(s)
    ensures Leaked(Take(s, account), g) <==> Leaked(s, g)
  {
    if g in s.links && account in s.sessions && g != s.sessions[account].generation {
      TakeAgrees(s, account, g);
      AgreeLeaks(s, Take(s, account), g);
    } else if g in s.links {
      assert Accounted(s, g);
    }
  }

  lemma LeakPlain(s: State, e: Event, g: nat)
    requires Inv(s) && (e.Open? || e.CreateTakesEffect? || e.CloudRemoved? || e.Crash?)
    ensures Leaked(Step(s, e), g) <==> Leaked(s, g) && e != Crash
  {
  }

  lemma LeakShutdown(s: State, g: nat)
    requires Inv(s)
    ensures Leaked(Stop(s), g) <==> Leaked(s, g)
    ensures Leaked(Step(s, ShutdownDone), g) <==> Leaked(s, g)
  {
    if g in s.links { assert Accounted(s, g) && Drained(s, g); }
  }

  /**
   * One step leaks a connection exactly when the RPC connection is open, no session owns it, and either its
   * last close handle's stream.close() rejects after the attempt has ended, or the attempt returns from its
   * success write after such a rejection.
   */
  lemma LeakStep(s: State, e: Event, g: nat)
    requires Inv(s)
    ensures Leaked(Step(s, e), g) <==> LosesRpc(s, e, g) || (Leaked(s, g) && e != Crash)
  {
    match e
    case Settle(h, ok) => if Attempting(s, h) { LeakSettle(s, h, ok, g); }
    case CloserSettles(h, ok) => LeakCloser(s, h, ok, g);
    case TakeSession(account) => LeakTake(s, account, g);
    case Shutdown => LeakShutdown(s, g);
    case ShutdownDone => LeakShutdown(s, g);
    case _ => LeakPlain(s, e, g);
  }

  /** Whether the run so far has leaked a connection of `g`; a crash takes every connection with it. */
  predicate HasLost(s: State, es: seq<Event>, g: nat)
    decreases |es|
  {
    es != [] &&
    var n := |es| - 1;
    LosesRpc(Run(s, es[..n]), es[n], g) || (HasLost(s, es[..n], g) && es[n] != Crash)
  }

  lemma RunSnoc(s: State, es: seq<Event>)
    requires es != []
    ensures Run(s, es) == Step(Run(s, es[..|es| - 1]), es[|es| - 1])
  {
    var n := |es| - 1;
    RunConcat(s, es[..n], [es[n]]);
    assert es[..n] + [es[n]] == es;
    assert [es[n]][1..] == [];
  }

  /** Over whole runs: a connection is open with nobody left to close it if and only if such a step lost it. */
  lemma {:induction false} LeakedExactly(cloud: map<CloudId, Account>, es: seq<Event>, g: nat)
    requires UniqueOwners(cloud)
    ensures Leaked(Run(Fresh(cloud), es), g) <==> HasLost(Fresh(cloud), es, g)
    decreases |es|
  {
    if es != [] {
      var n := |es| - 1;
      LeakedExactly(cloud, es[..n], g);
      RunKeeps(Fresh(cloud), es[..n]);
      RunSnoc(Fresh(cloud), es);
      LeakStep(Run(Fresh(cloud), es[..n]), es[n], g);
    }
  }

  lemma {:induction false} RunConcat(s: State, xs: seq<Event>, ys: seq<Event>)
    ensures Run(s, xs + ys) == Run(Run(s, xs), ys)
    decreases |xs|
  {
    if xs == [] {
      assert xs + ys == ys;
    } else {
      assert (xs + ys)[1..] == xs[1..] + ys;
      RunConcat(Step(s, xs[0]), xs[1..], ys);
    }
  }

  /** A run is any chain of steps. */
  lemma {:induction false} RunTrace(es: seq<Event>, trace: seq<State>)
    requires |trace| == |es| + 1
    requires forall i :: 0 <= i < |es| ==> trace[i + 1] == Step(trace[i], es[i])
    ensures Run(trace[0], es) == trace[|es|]
    decreases |es|
  {
    if es != [] {
      assert trace[0 + 1] == Step(trace[0], es[0]);
      forall i | 0 <= i < |es[1..]| ensures trace[1..][i + 1] == Step(trace[1..][i], es[1..][i]) {
        assert trace[i + 1 + 1] == Step(trace[i + 1], es[i + 1]);
      }
      RunTrace(es[1..], trace[1..]);
    }
  }

  /** One account with one attempt, before publication. */
  function UpTo(a: Account, stage: Stage, rpc: Conn, stream: Conn): State {
    State(false, 1, {a}, map[a := Slot(1, false)], map[1 := Attempt(a, stage)],
          map[1 := Link(a, rpc, stream, false)], map[], map[])
  }

  lemma ReachSubscribing(a: Account)
    ensures Run(Fresh(map[]), [Open(a, true), Settle(1, true), Settle(1, true), Settle(1, true)])
            == UpTo(a, Subscribing, Opened, Opened)
  {
    var ok := Settle(1, true);
    assert Step(UpTo(a, Getting, Unopened, Unopened), ok) == UpTo(a, Connecting, Unopened, Unopened);
    assert Step(UpTo(a, Connecting, Unopened, Unopened), ok) == UpTo(a, Syncing, Opened, Unopened);
    assert Step(UpTo(a, Syncing, Opened, Unopened), ok) == UpTo(a, Subscribing, Opened, Opened);
    RunTrace([Open(a, true), ok, ok, ok],
             [Fresh(map[]), UpTo(a, Getting, Unopened, Unopened), UpTo(a, Connecting, Unopened, Unopened),
              UpTo(a, Syncing, Opened, Unopened), UpTo(a, Subscribing, Opened, Opened)]);
  }

  /** One account streaming, its attempt returned. */
  function Streaming(a: Account): State {
    State(false, 1, {}, map[a := Slot(1, true)], map[], map[1 := Link(a, Opened, Opened, false)], map[], map[])
  }

  lemma PublishAndReturn(a: Account)
    ensures Run(UpTo(a, Subscribing, Opened, Opened), [Settle(1, true), Settle(1, true)]) == Streaming(a)
  {
    var ok := Settle(1, true);
    var s := UpTo(a, Subscribing, Opened, Opened);
    var s1 := s.(sessions := map[a := Slot(1, true)], attempts := map[1 := Attempt(a, Saving)]);
    assert s1 == Step(s, ok);
    assert Streaming(a) == Step(s1, ok);
    RunTrace([ok, ok], [s, s1, Streaming(a)]);
  }

  lemma CloseRejects(a: Account)
    ensures Run(Streaming(a), [TakeSession(a), CloserSettles(1, false)])
            == State(false, 1, {}, map[], map[], map[1 := Link(a, Opened, Closed, true)], map[], map[])
  {
    var s1 := State(false, 1, {}, map[], map[], map[1 := Link(a, Opened, Closed, false)], map[1 := 1], map[]);
    var s2 := State(false, 1, {}, map[], map[], map[1 := Link(a, Opened, Closed, true)], map[], map[]);
    assert s1 == Step(Streaming(a), TakeSession(a));
    assert s2 == Step(s1, CloserSettles(1, false));
    RunTrace([TakeSession(a), CloserSettles(1, false)], [Streaming(a), s1, s2]);
  }

  /**
   * The exception is real: the handle closes the stream first and the RPC second, with no guard in
   * between, so a rejected stream.close() leaves the RPC connection open with nobody to close it.
   */
  lemma RejectedCloseLeaksRpc(a: Account)
    ensures var s := Run(Fresh(map[]), [Open(a, true), Settle(1, true), Settle(1, true), Settle(1, true)]
                + [Settle(1, true), Settle(1, true)] + [TakeSession(a), CloserSettles(1, false)]);
      1 in s.links && s.links[1].rpc == Opened && s.attempts == map[] && s.sessions == map[] && s.closers == map[]
  {
    var ok := Settle(1, true);
    ReachSubscribing(a);
    PublishAndReturn(a);
    CloseRejects(a);
    RunConcat(Fresh(map[]), [Open(a, true), ok, ok, ok], [ok, ok]);
    RunConcat(Fresh(map[]), [Open(a, true), ok, ok, ok] + [ok, ok], [TakeSession(a), CloserSettles(1, false)]);
  }

  // ---- the manager, field by field ----

  /** Shutdown, when the handles in `done` have been started. */
  function StopSome(s: State, done: set<Slot>): State {
    s.(stopped := true,
       links := map g | g in s.links :: if Slot(g, true) in done then s.links[g].(stream := Closed) else s.links[g],
       closers := s.closers + map g | g in s.links && Slot(g, true) in done :: Handles(s, g) + 1)
  }

  function Closing(s: State, slot: Slot): State {
    var g := slot.generation;
    if slot.live && g in s.links then
      s.(links := s.links[g := s.links[g].(stream := Closed)], closers := s.closers[g := Handles(s, g) + 1])
    else s
  }

  lemma StopSomeNext(s: State, done: set<Slot>, slot: Slot)
    requires slot !in done
    ensures StopSome(s, done + {slot}) == Closing(StopSome(s, done), slot)
  {
    var x, y := StopSome(s, done + {slot}), Closing(StopSome(s, done), slot);
    assert x.links == y.links;
    StopSomeClosers(s, done, slot);
  }

  lemma StopSomeClosersAt(s: State, done: set<Slot>, slot: Slot, g: nat)
    requires slot !in done
    ensures var x, y := StopSome(s, done + {slot}).closers, Closing(StopSome(s, done), slot).closers;
      (g in x <==> g in y) && (g in x ==> x[g] == y[g])
  {
  }

  lemma StopSomeClosers(s: State, done: set<Slot>, slot: Slot)
    requires slot !in done
    ensures StopSome(s, done + {slot}).closers == Closing(StopSome(s, done), slot).closers
  {
    var x, y := StopSome(s, done + {slot}).closers, Closing(StopSome(s, done), slot).closers;
    forall g ensures (g in x <==> g in y) && (g in x ==> x[g] == y[g]) { StopSomeClosersAt(s, done, slot, g); }
  }

  lemma OwnersAreSlots(s: State, g: nat)
    requires Slots(s) && g in s.links
    ensures SessionOwns(s, g) <==> Slot(g, true) in s.sessions.Values
  {
  }

  lemma StopSomeAll(s: State)
    requires Slots(s)
    ensures StopSome(s, s.sessions.Values) == Stop(s)
  {
    forall g | g in s.links ensures SessionOwns(s, g) <==> Slot(g, true) in s.sessions.Values { OwnersAreSlots(s, g); }
    StopSomeIsStop(s, s.sessions.Values);
  }

  lemma StopSomeIsStop(s: State, done: set<Slot>)
    requires forall g :: g in s.links ==> (SessionOwns(s, g) <==> Slot(g, true) in done)
    ensures StopSome(s, done) == Stop(s)
  {
    var x, y := StopSome(s, done), Stop(s);
    assert x.links == y.links;
    assert x.closers == y.closers;
  }

  /** The fields of the connection manager, with the frames the runtime keeps suspended and the cloud side. */
  class ConnectionManager {
    var stopped: bool
    var generation: nat
    var opening: set<Account>
    var sessions: map<Account, Slot>
    var attempts: map<nat, Attempt>
    var links: map<nat, Link>
    var closers: map<nat, nat>
    var cloud: map<CloudId, Account>

    ghost function View(): State
      reads this
    {
      State(stopped, generation, opening, sessions, attempts, links, closers, cloud)
    }

    ghost predicate Valid()
      reads this
    {
      Inv(View())
    }

    constructor (found: map<CloudId, Account>)
      requires UniqueOwners(found)
      ensures Valid() && View() == Fresh(found)
    {
      stopped, generation, opening, sessions := false, 0, {}, map[];
      attempts, links, closers, cloud := map[], map[], map[], found;
    }

    /** Called by reconcile and by retry timers, both of which look at `stopped` and `sessions` first. */
    method OpenAccount(account: Account, hasId: bool)
      requires Valid()
      modifies this
      ensures View() == Step(old(View()), Open(account, hasId))
      ensures Valid()
    {
      StepKeeps(View(), Open(account, hasId));
      BeginOpen(account, hasId);
    }

    /** open, up to its first await. */
    method BeginOpen(account: Account, hasId: bool)
      modifies this
      ensures View() == Step(old(View()), Open(account, hasId))
    {
      if stopped || account in sessions || account in opening { return; }
      opening := opening + {account};
      generation := generation + 1;
      sessions := sessions[account := Slot(generation, false)];
      links := links[generation := Link(account, Unopened, Unopened, false)];
      attempts := attempts[generation := Attempt(account, if hasId then Getting else Looking)];
    }

    method CreateLands(g: nat, id: CloudId)
      requires Valid()
      modifies this
      ensures View() == Step(old(View()), CreateTakesEffect(g, id))
      ensures Valid()
    {
      StepKeeps(View(), CreateTakesEffect(g, id));
      if g !in attempts || attempts[g].stage != Creating(false) || id in cloud { return; }
      cloud := cloud[id := attempts[g].account];
      attempts := attempts[g := attempts[g].(stage := Creating(true))];
    }

    method Suspend(g: nat, stage: Stage)
      requires g in attempts
      modifies this`attempts
      ensures attempts == old(attempts)[g := Attempt(old(attempts)[g].account, stage)]
    {
      attempts := attempts[g := attempts[g].(stage := stage)];
    }

    method Finally(g: nat)
      requires g in attempts
      modifies this`attempts, this`opening
      ensures attempts == old(attempts) - {g} && opening == old(opening) - {old(attempts)[g].account}
    {
      opening := opening - {attempts[g].account};
      attempts := attempts - {g};
    }

    method Failed(g: nat)
      requires g in attempts && g in links
      modifies this
      ensures View() == Commit(old(View()), g, Catch(old(links)[g]))
    {
      sessions := sessions - {attempts[g].account};
      if links[g].stream != Unopened {
        links := links[g := links[g].(stream := Closed)];
        Suspend(g, CatchingStream);
      } else if links[g].rpc != Unopened {
        links := links[g := links[g].(rpc := Closed)];
        Suspend(g, CatchingRpc);
      } else {
        Suspend(g, Recovering);
      }
    }

    /** The code after `ensureAccount`. */
    method Ensured(g: nat, abandon: bool)
      requires g in attempts && g in links
      modifies this
      ensures View() == Commit(old(View()), g, if abandon then Returns else To(old(links)[g], Connecting))
    {
      if abandon { Finally(g); } else { Suspend(g, Connecting); }
    }

    /** The code after `waitConnected`. */
    method Connected(g: nat, abandon: bool)
      requires g in attempts && g in links
      modifies this
      ensures View() == Commit(old(View()), g, Continue(Connecting, abandon, false, old(links)[g]))
    {
      if abandon {
        Finally(g);
      } else {
        links := links[g := links[g].(rpc := Opened)];
        Suspend(g, Syncing);
      }
    }

    /** The code after the backfill. */
    method Backfilled(g: nat, abandon: bool)
      requires g in attempts && g in links
      modifies this
      ensures View() == Commit(old(View()), g, Continue(Syncing, abandon, false, old(links)[g]))
    {
      if abandon {
        links := links[g := links[g].(rpc := Closed)];
        Suspend(g, DroppingRpc);
      } else {
        links := links[g := links[g].(stream := Opened)];
        Suspend(g, Subscribing);
      }
    }

    /** The last gate: publish the session, or drop both connections. */
    method Gate(g: nat, abandon: bool)
      requires g in attempts && g in links
      modifies this
      ensures View() == Commit(old(View()), g, Continue(Subscribing, abandon, false, old(links)[g]))
    {
      if abandon {
        links := links[g := links[g].(stream := Closed)];
        Suspend(g, DroppingStream);
      } else {
        sessions := sessions[attempts[g].account := Slot(g, true)];
        Suspend(g, Saving);
      }
    }

    method CloseRpc(g: nat, next: Stage)
      requires g in attempts && g in links
      modifies this
      ensures View() == Commit(old(View()), g, Goes(next, Closed, old(links)[g].stream, Keep))
    {
      links := links[g := links[g].(rpc := Closed)];
      Suspend(g, next);
    }

    /** The awaits inside `ensureAccount`. */
    method EnsurePhase(g: nat, abandon: bool)
      requires Attempting(View(), g)
          && attempts[g].stage in {Getting, Looking, Adopting, Creating(false), Creating(true), Persisting}
      modifies this
      ensures View() == Commit(old(View()), g,
                Continue(old(attempts)[g].stage, abandon, Owned(old(View()), old(attempts)[g].account), old(links)[g]))
    {
      var stage := attempts[g].stage;
      if stage == Looking {
        Suspend(g, if HasCloudAccount(attempts[g].account) then Adopting else Creating(false));
      } else if stage == Creating(true) {
        Suspend(g, Persisting);
      } else if stage != Creating(false) {
        Ensured(g, abandon);
      }
    }

    predicate HasCloudAccount(account: Account)
      reads this`cloud
    {
      account in cloud.Values
    }

    /** The awaits of the failure path and of the early returns. */
    method WindDown(g: nat)
      requires Attempting(View(), g)
      requires attempts[g].stage !in {Getting, Looking, Adopting, Creating(false), Creating(true), Persisting}
      requires attempts[g].stage !in {Connecting, Syncing, Subscribing}
      modifies this
      ensures View() == Commit(old(View()), g, Continue(old(attempts)[g].stage, false, false, old(links)[g]))
    {
      var stage := attempts[g].stage;
      if stage == DroppingStream {
        CloseRpc(g, DroppingBoth);
      } else if stage == CatchingStream && links[g].rpc != Unopened {
        CloseRpc(g, CatchingRpc);
      } else if stage == CatchingStream || stage == CatchingRpc {
        Suspend(g, Recovering);
      } else {
        Finally(g);
      }
    }

    method Advance(g: nat, ok: bool)
      requires Attempting(View(), g)
      modifies this
      ensures View() == Resume(old(View()), g, ok)
    {
      var account, stage := attempts[g].account, attempts[g].stage;
      var abandon := stopped || account !in sessions || sessions[account].generation != g;
      if !ok && Recoverable(stage) {
        Failed(g);
      } else if stage in {Getting, Looking, Adopting, Creating(false), Creating(true), Persisting} {
        EnsurePhase(g, abandon);
      } else if stage == Connecting {
        Connected(g, abandon);
      } else if stage == Syncing {
        Backfilled(g, abandon);
      } else if stage == Subscribing {
        Gate(g, abandon);
      } else {
        WindDown(g);
      }
    }

    /** Run attempt `g` from the await it is suspended at to the next one. */
    method ResumeAttempt(g: nat, ok: bool)
      requires Valid() && g in attempts
      modifies this
      ensures View() == Step(old(View()), Settle(g, ok))
      ensures Valid()
    {
      StepKeeps(View(), Settle(g, ok));
      Advance(g, ok);
    }

    /** teardown, or a row that left the selection: drop the session and start its close handle. */
    method CloseSession(account: Account)
      requires Valid()
      modifies this
      ensures View() == Step(old(View()), TakeSession(account))
      ensures Valid()
    {
      StepKeeps(View(), TakeSession(account));
      DropSession(account);
    }

    method DropSession(account: Account)
      modifies this`sessions, this`links, this`closers
      ensures View() == Take(old(View()), account)
    {
      if account !in sessions { return; }
      var slot := sessions[account];
      sessions := sessions - {account};
      if slot.live && slot.generation in links {
        links := links[slot.generation := links[slot.generation].(stream := Closed)];
        closers := closers[slot.generation := if slot.generation in closers then closers[slot.generation] + 1 else 1];
      }
    }

    method ResumeCloser(g: nat, ok: bool)
      requires Valid() && g in closers
      modifies this
      ensures View() == Step(old(View()), CloserSettles(g, ok))
      ensures Valid()
    {
      StepKeeps(View(), CloserSettles(g, ok));
      SettleCloser(g, ok);
    }

    method SettleCloser(g: nat, ok: bool)
      requires g in closers
      modifies this`links, this`closers
      ensures View() == CloserStep(old(View()), g, ok)
    {
      if closers[g] == 0 || g !in links { return; }
      if ok {
        links := links[g := links[g].(rpc := Closed)];
      } else {
        links := links[g := links[g].(dropped := true)];
      }
      closers := if closers[g] == 1 then closers - {g} else closers[g := closers[g] - 1];
    }

    method CloseHandle(slot: Slot)
      modifies this`links, this`closers
      ensures View() == Closing(old(View()), slot)
    {
      if slot.live && slot.generation in links {
        links := links[slot.generation := links[slot.generation].(stream := Closed)];
        closers := closers[slot.generation := if slot.generation in closers then closers[slot.generation] + 1 else 1];
      }
    }

    method CloseAll()
      modifies this
      ensures View() == StopSome(old(View()), old(sessions).Values)
    {
      ghost var s := View();
      stopped := true;
      var todo := sessions.Values;
      ghost var done := {};
      assert View() == StopSome(s, done);
      while todo != {}
        invariant todo + done == s.sessions.Values && todo !! done
        invariant View() == StopSome(s, done)
        decreases todo
      {
        var slot :| slot in todo;
        StopSomeNext(s, done, slot);
        CloseHandle(slot);
        todo, done := todo - {slot}, done + {slot};
      }
    }

    method OnModuleDestroy()
      requires Valid()
      modifies this
      ensures View() == Step(old(View()), Shutdown)
      ensures Valid()
    {
      StepKeeps(View(), Shutdown);
      StopSomeAll(View());
      CloseAll();
    }

    method ShutdownSettled()
      requires Valid() && AllClosed(View())
      modifies this
      ensures View() == Step(old(View()), ShutdownDone)
      ensures Valid()
    {
      StepKeeps(View(), ShutdownDone);
      sessions := map[];
    }
  }
}
