/**
 * The billing lifecycle of MetaApi cloud terminals: `ensureAccount`, `open`, `destroyCloudAccount`,
 * `handleFailure` and `teardown` over the TradingAccount rows and the cloud accounts, with any API
 * outcomes. Each open or teardown runs to completion from the row's current contents; the cloud
 * answers 404 exactly for an account that does not exist, and a `remove` that returns has removed.
 */
module TerminalBilling {
  import opened Common
  import opened MetaApiErrors

  type RowId = string
  type CloudId = string

  /** terminalIntegrationStatus; `Healthy` is null. */
  datatype Status = Healthy | Connecting | Disconnecting | Deactivated

  datatype Row = Row(status: Status, terminalId: Option<CloudId>)

  /** A cloud account, recognised by the name derived from its owning row; `running` is on the meter. */
  datatype Terminal = Terminal(owner: RowId, running: bool)

  datatype State = State(rows: map<RowId, Row>, cloud: map<CloudId, Terminal>, backoff: map<RowId, nat>)

  const CONNECT_MAX_ATTEMPTS: nat := 8

  /** A failure other than the truthful 404. */
  datatype Failure = BadAccount | BadToken | Glitch

  function KindOf(f: Failure): Kind {
    match f
    case BadAccount => FatalAccount
    case BadToken => GlobalAuth
    case Glitch => Transient
  }

  /** Outcomes of the calls inside destroyCloudAccount; `removed`: the delete took effect before the throw. */
  datatype DestroyScript = DestroyScript(
    get: Option<Failure>, undeploy: Option<Failure>, remove: Option<Failure>, removed: bool, probe: Option<Failure>)

  /** Outcomes of the calls of one open; `created`: the create took effect before the throw. */
  datatype Script = Script(
    get: Option<Failure>, lookup: Option<Failure>, create: Option<Failure>, created: bool, newId: CloudId,
    persisted: bool, connect: Option<Failure>, destroy: DestroyScript, saved: bool)

  // ---- destroyCloudAccount ----

  datatype Destroyed = Destroyed(cloud: map<CloudId, Terminal>, gone: bool)

  /** The error path: a rejected token gives up, anything else probes once. */
  function AfterError(cloud: map<CloudId, Terminal>, id: CloudId, f: Failure, sc: DestroyScript): Destroyed {
    if f == BadToken then Destroyed(cloud, false) else Destroyed(cloud, sc.probe.None? && id !in cloud)
  }

  function Destroy(cloud: map<CloudId, Terminal>, id: CloudId, sc: DestroyScript): Destroyed {
    if sc.get.Some? then AfterError(cloud, id, sc.get.value, sc)
    else if id !in cloud then Destroyed(cloud, true)
    else if cloud[id].running && sc.undeploy.Some? then AfterError(cloud, id, sc.undeploy.value, sc)
    else
      var stopped := cloud[id := cloud[id].(running := false)];
      match sc.remove
      case None => Destroyed(stopped - {id}, true)
      case Some(f) => AfterError(if sc.removed then stopped - {id} else stopped, id, f, sc)
  }

  // ---- handleFailure ----

  function Attempts(s: State, r: RowId): nat {
    if r in s.backoff then s.backoff[r] else 0
  }

  /** The row write that hides the row. */
  function Deactivate(s: State, r: RowId, saved: bool): State {
    if saved then s.(rows := s.rows[r := Row(Deactivated, None)]) else s
  }

  function DestroyThenDeactivate(s: State, r: RowId, known: Option<CloudId>, sc: Script): State {
    match known
    case None => Deactivate(s.(backoff := s.backoff - {r}), r, sc.saved)
    case Some(id) =>
      var d := Destroy(s.cloud, id, sc.destroy);
      if d.gone then Deactivate(s.(cloud := d.cloud, backoff := s.backoff - {r}), r, sc.saved)
      else s.(cloud := d.cloud)
  }

  function HandleFailure(s: State, r: RowId, known: Option<CloudId>, kind: Kind, sc: Script): State
    requires r in s.rows
  {
    var row := s.rows[r];
    match kind
    case GlobalAuth => s
    case NotFound =>
      if row.status == Connecting && Attempts(s, r) >= CONNECT_MAX_ATTEMPTS then
        Deactivate(s.(backoff := s.backoff - {r}), r, sc.saved)
      else if sc.saved then s.(rows := s.rows[r := row.(terminalId := None)])
      else s
    case FatalAccount =>
      // The fatal path leaves the backoff counter alone.
      DestroyThenDeactivate(s, r, known, sc).(backoff := s.backoff)
    case Transient =>
      var s1 := s.(backoff := s.backoff[r := Attempts(s, r) + 1]);
      if row.status == Connecting && Attempts(s, r) + 1 >= CONNECT_MAX_ATTEMPTS then
        DestroyThenDeactivate(s1, r, known, sc)
      else s1
  }

  // ---- ensureAccount and open ----

  predicate Owns(cloud: map<CloudId, Terminal>, r: RowId, id: CloudId) {
    id in cloud && cloud[id].owner == r
  }

  ghost predicate HasTerminal(cloud: map<CloudId, Terminal>, r: RowId) {
    exists id :: Owns(cloud, r, id)
  }

  /** What ensureAccount returns or throws; `known` is the id its caller would hand to handleFailure. */
  datatype Ensured =
    | Ready(s: State, id: CloudId)
    | Thrown(s: State, known: Option<CloudId>, kind: Kind)

  function Persist(s: State, r: RowId, id: CloudId, persisted: bool): Ensured
    requires r in s.rows
  {
    if persisted then Ready(s.(rows := s.rows[r := s.rows[r].(terminalId := Some(id))]), id)
    else Thrown(s, None, Transient)
  }

  ghost function EnsureAccount(s: State, r: RowId, sc: Script): Ensured
    requires r in s.rows
  {
    match s.rows[r].terminalId
    case Some(id) =>
      if sc.get.Some? then Thrown(s, Some(id), KindOf(sc.get.value))
      else if id !in s.cloud then Thrown(s, Some(id), NotFound)
      else Ready(s, id)
    case None =>
      if sc.lookup.Some? then Thrown(s, None, KindOf(sc.lookup.value))
      else if HasTerminal(s.cloud, r) then
        var id :| Owns(s.cloud, r, id);
        Persist(s, r, id, sc.persisted)
      else
        var s1 := s.(cloud := s.cloud[sc.newId := Terminal(r, true)]);
        match sc.create
        case None => Persist(s1, r, sc.newId, sc.persisted)
        case Some(f) => Thrown(if sc.created then s1 else s, None, KindOf(f))
  }

  /** Deploy if needed, connect, stream, then the success row write. */
  function AfterEnsure(s: State, r: RowId, id: CloudId, sc: Script): State
    requires r in s.rows
  {
    var s1 := s.(cloud := s.cloud[id := Terminal(r, true)]);
    if sc.connect.Some? then HandleFailure(s1, r, Some(id), KindOf(sc.connect.value), sc)
    else
      var s2 := s1.(backoff := s1.backoff - {r});
      if sc.saved then s2.(rows := s2.rows[r := Row(Healthy, Some(id))])
      else HandleFailure(s2, r, Some(id), Transient, sc)
  }

  ghost function Open(s: State, r: RowId, sc: Script): State
    requires r in s.rows
  {
    match EnsureAccount(s, r, sc)
    case Thrown(s1, known, kind) => if r in s1.rows then HandleFailure(s1, r, known, kind, sc) else s1
    case Ready(s1, id) => if r in s1.rows then AfterEnsure(s1, r, id, sc) else s1
  }

  // ---- teardown ----

  ghost function Teardown(s: State, r: RowId, sc: Script): State
    requires r in s.rows
  {
    match s.rows[r].terminalId
    case Some(id) => TeardownCloud(s, r, id, sc)
    case None =>
      if sc.lookup.Some? then s
      else if HasTerminal(s.cloud, r) then
        var id :| Owns(s.cloud, r, id);
        TeardownCloud(s, r, id, sc)
      else Deactivate(s, r, sc.saved)
  }

  function TeardownCloud(s: State, r: RowId, id: CloudId, sc: Script): State {
    var d := Destroy(s.cloud, id, sc.destroy);
    var s1 := s.(cloud := d.cloud);
    if d.gone then Deactivate(s1, r, sc.saved) else s1
  }

  // ---- what holds ----

  /** A row's terminals are the one whose id it stores, or one orphan while it stores none. */
  ghost predicate Tracked(s: State) {
    && (forall id :: id in s.cloud ==> s.cloud[id].owner in s.rows)
    && (forall id :: id in s.cloud ==>
          s.rows[s.cloud[id].owner].terminalId == None || s.rows[s.cloud[id].owner].terminalId == Some(id))
    && (forall r :: r in s.rows && s.rows[r].terminalId.Some? && s.rows[r].terminalId.value in s.cloud ==>
          s.cloud[s.rows[r].terminalId.value].owner == r)
    && (forall i, j :: i in s.cloud && j in s.cloud && s.cloud[i].owner == s.cloud[j].owner ==> i == j)
  }

  /** A terminal that no status-driven code will ever reach again. */
  ghost predicate Stranded(s: State, r: RowId) {
    r in s.rows && s.rows[r].status == Deactivated && HasTerminal(s.cloud, r)
  }

  /** The cloud holds an account of the row, and the row does not store its id. */
  ghost predicate Orphaned(s: State, r: RowId) {
    r in s.rows && s.rows[r].terminalId == None && HasTerminal(s.cloud, r)
  }

  ghost predicate Covered(s: State) {
    forall r :: r in s.rows ==> !Stranded(s, r)
  }

  /** The failure leads to the hiding write. */
  predicate GivesUp(s: State, r: RowId, f: Failure)
    requires r in s.rows
  {
    f == BadAccount ||
    (f == Glitch && s.rows[r].status == Connecting && Attempts(s, r) + 1 >= CONNECT_MAX_ATTEMPTS)
  }

  /**
   * The attempt gives up without knowing the id of a cloud account that exists: the row stores no id,
   * and the lookup failed, or the create threw after taking effect, or the id could not be persisted.
   */
  ghost predicate Blind(s: State, r: RowId, sc: Script)
    requires r in s.rows
  {
    && sc.saved
    && s.rows[r].terminalId == None
    && (if sc.lookup.Some? then HasTerminal(s.cloud, r) && GivesUp(s, r, sc.lookup.value)
        else if HasTerminal(s.cloud, r) || sc.create.None? then !sc.persisted && GivesUp(s, r, Glitch)
        else sc.created && GivesUp(s, r, sc.create.value))
  }

  /** The attempt ends without having stored the id of a cloud account that exists. */
  ghost predicate LosesTrack(s: State, r: RowId, sc: Script)
    requires r in s.rows
  {
    && s.rows[r].terminalId == None
    && (if sc.lookup.Some? then HasTerminal(s.cloud, r)
        else if HasTerminal(s.cloud, r) || sc.create.None? then !sc.persisted
        else sc.created)
  }

  lemma DestroyFacts(cloud: map<CloudId, Terminal>, id: CloudId, sc: DestroyScript)
    ensures var d := Destroy(cloud, id, sc);
      && (d.gone ==> id !in d.cloud)
      && (forall k :: k in d.cloud ==> k in cloud && d.cloud[k].owner == cloud[k].owner)
      && (forall k :: k in cloud && k != id ==> k in d.cloud && d.cloud[k] == cloud[k])
  {
  }

  ghost predicate Visible(s: State, r: RowId) {
    r in s.rows && s.rows[r].status in {Healthy, Connecting}
  }

  /** The id handed to handleFailure is the only terminal the row has, or the row has none. */
  ghost predicate KnowsItsTerminal(s: State, r: RowId, known: Option<CloudId>) {
    forall id :: Owns(s.cloud, r, id) ==> known == Some(id)
  }

  /** Everything an open of `r` may change belongs to `r`. */
  ghost predicate OthersUntouched(s: State, t: State, r: RowId) {
    && t.rows.Keys == s.rows.Keys
    && (forall q :: q in s.rows && q != r ==> t.rows[q] == s.rows[q])
    && (forall id :: id in s.cloud && s.cloud[id].owner != r ==> id in t.cloud && t.cloud[id] == s.cloud[id])
    && (forall id :: id in t.cloud && t.cloud[id].owner != r ==> id in s.cloud && t.cloud[id] == s.cloud[id])
    && (forall q :: q in s.rows && q != r && s.rows[q].terminalId.Some? && s.rows[q].terminalId.value !in s.cloud ==>
          s.rows[q].terminalId.value !in t.cloud)
  }

  /** `r`'s own terminals are still tracked. */
  ghost predicate TracksRow(s: State, r: RowId)
    requires r in s.rows
  {
    && (forall id :: Owns(s.cloud, r, id) ==> s.rows[r].terminalId == None || s.rows[r].terminalId == Some(id))
    && (forall i, j :: Owns(s.cloud, r, i) && Owns(s.cloud, r, j) ==> i == j)
    && (s.rows[r].terminalId.Some? && s.rows[r].terminalId.value in s.cloud ==>
          Owns(s.cloud, r, s.rows[r].terminalId.value))
  }

  /** The cloud never reuses an account id. */
  ghost predicate NewToAll(s: State, id: CloudId) {
    id !in s.cloud && forall r :: r in s.rows ==> s.rows[r].terminalId != Some(id)
  }

  lemma TrackedFromRow(s: State, t: State, r: RowId)
    requires Tracked(s) && r in s.rows && OthersUntouched(s, t, r) && TracksRow(t, r)
    ensures Tracked(t)
    ensures forall q :: q in s.rows && q != r ==> (Stranded(t, q) <==> Stranded(s, q))
    ensures forall q :: q in s.rows && q != r ==> (Orphaned(t, q) <==> Orphaned(s, q))
  {
    forall i, j | i in t.cloud && j in t.cloud && t.cloud[i].owner == t.cloud[j].owner ensures i == j {
      if t.cloud[i].owner == r { assert Owns(t.cloud, r, i) && Owns(t.cloud, r, j); }
    }
    forall id | id in t.cloud
      ensures t.cloud[id].owner in t.rows
      ensures t.rows[t.cloud[id].owner].terminalId in {None, Some(id)}
    {
      if t.cloud[id].owner == r { assert Owns(t.cloud, r, id); }
    }
    forall q | q in s.rows && q != r ensures HasTerminal(t.cloud, q) <==> HasTerminal(s.cloud, q) {
      if id :| Owns(s.cloud, q, id) { assert Owns(t.cloud, q, id); }
      if id :| Owns(t.cloud, q, id) { assert Owns(s.cloud, q, id); }
    }
  }

  /** Destroying the row's terminal touches nobody else's. */
  lemma DestroyStaysHome(s: State, r: RowId, id: CloudId, sc: DestroyScript)
    requires Tracked(s) && r in s.rows && (id in s.cloud ==> s.cloud[id].owner == r)
    ensures var t := s.(cloud := Destroy(s.cloud, id, sc).cloud); OthersUntouched(s, t, r)
    ensures forall k :: Owns(Destroy(s.cloud, id, sc).cloud, r, k) ==> Owns(s.cloud, r, k)
    ensures Destroy(s.cloud, id, sc).gone ==> !Owns(Destroy(s.cloud, id, sc).cloud, r, id)
  {
    DestroyFacts(s.cloud, id, sc);
  }

  /** handleFailure with the id of the row's terminal never strands it. */
  lemma InformedFailureIsSafe(s: State, r: RowId, known: Option<CloudId>, kind: Kind, sc: Script)
    requires Tracked(s) && Visible(s, r) && KnowsItsTerminal(s, r, known)
    requires s.rows[r].terminalId == known && known.Some?
    requires known.value in s.cloud ==> s.cloud[known.value].owner == r
    requires kind == NotFound ==> !HasTerminal(s.cloud, r)
    ensures var t := HandleFailure(s, r, known, kind, sc);
      OthersUntouched(s, t, r) && TracksRow(t, r) && !Stranded(t, r) && !Orphaned(t, r)
  {
    var t := HandleFailure(s, r, known, kind, sc);
    DestroyStaysHome(s, r, known.value, sc.destroy);
    forall id | Owns(t.cloud, r, id) ensures Owns(s.cloud, r, id) {}
    forall i, j | Owns(s.cloud, r, i) && Owns(s.cloud, r, j) ensures i == j {}
    forall id | Owns(s.cloud, r, id) ensures s.rows[r].terminalId in {None, Some(id)} {}
  }

  /** handleFailure without an id strands the row's terminal exactly when it gives up. */
  lemma BlindFailure(s: State, r: RowId, f: Failure, sc: Script)
    requires Tracked(s) && Visible(s, r) && s.rows[r].terminalId == None
    ensures var t := HandleFailure(s, r, None, KindOf(f), sc);
      && OthersUntouched(s, t, r) && TracksRow(t, r)
      && (Stranded(t, r) <==> sc.saved && HasTerminal(s.cloud, r) && GivesUp(s, r, f))
      && (Orphaned(t, r) <==> HasTerminal(s.cloud, r))
  {
    var t := HandleFailure(s, r, None, KindOf(f), sc);
    assert t.cloud == s.cloud;
    forall i, j | Owns(s.cloud, r, i) && Owns(s.cloud, r, j) ensures i == j {}
  }

  lemma PersistedIsTracked(s: State, r: RowId, id: CloudId)
    requires Tracked(s) && Visible(s, r) && Owns(s.cloud, r, id)
    ensures var t := s.(rows := s.rows[r := s.rows[r].(terminalId := Some(id))]); Tracked(t)
  {
    forall k | k in s.cloud && s.cloud[k].owner == r ensures k == id {}
  }

  /** A freshly created account is the row's only one. */
  lemma CreatedIsTracked(s: State, r: RowId, id: CloudId)
    requires Tracked(s) && Visible(s, r) && s.rows[r].terminalId == None
    requires !HasTerminal(s.cloud, r) && NewToAll(s, id)
    ensures var t := s.(cloud := s.cloud[id := Terminal(r, true)]); Tracked(t) && Owns(t.cloud, r, id)
    ensures OthersUntouched(s, s.(cloud := s.cloud[id := Terminal(r, true)]), r)
  {
    forall k | k in s.cloud ensures s.cloud[k].owner != r {
      assert !Owns(s.cloud, r, k);
    }
  }

  /** After ensureAccount the row stores its terminal's id: every failure from here on is informed. */
  lemma ConnectPhase(s: State, r: RowId, id: CloudId, sc: Script)
    requires Tracked(s) && Visible(s, r) && Owns(s.cloud, r, id) && s.rows[r].terminalId == Some(id)
    ensures var t := AfterEnsure(s, r, id, sc);
      OthersUntouched(s, t, r) && TracksRow(t, r) && !Stranded(t, r) && !Orphaned(t, r)
  {
    var s1 := s.(cloud := s.cloud[id := Terminal(r, true)]);
    assert Tracked(s1);
    assert KnowsItsTerminal(s1, r, Some(id));
    if sc.connect.Some? {
      InformedFailureIsSafe(s1, r, Some(id), KindOf(sc.connect.value), sc);
    } else if !sc.saved {
      var s2 := s1.(backoff := s1.backoff - {r});
      assert Tracked(s2) && KnowsItsTerminal(s2, r, Some(id));
      InformedFailureIsSafe(s2, r, Some(id), Transient, sc);
    } else {
      forall i, j | Owns(s1.cloud, r, i) && Owns(s1.cloud, r, j) ensures i == j {}
    }
  }

  lemma OpenKnown(s: State, r: RowId, id: CloudId, sc: Script)
    requires Tracked(s) && Visible(s, r) && s.rows[r].terminalId == Some(id)
    ensures var t := Open(s, r, sc); OthersUntouched(s, t, r) && TracksRow(t, r) && !Stranded(t, r) && !Orphaned(t, r)
  {
    assert KnowsItsTerminal(s, r, Some(id));
    if sc.get.Some? {
      InformedFailureIsSafe(s, r, Some(id), KindOf(sc.get.value), sc);
    } else if id !in s.cloud {
      InformedFailureIsSafe(s, r, Some(id), NotFound, sc);
    } else {
      ConnectPhase(s, r, id, sc);
    }
  }

  /** The id is known from here: found or created, then stored. */
  lemma OpenStored(s: State, r: RowId, id: CloudId, sc: Script)
    requires Tracked(s) && Visible(s, r) && Owns(s.cloud, r, id)
    ensures var s1 := s.(rows := s.rows[r := s.rows[r].(terminalId := Some(id))]); var t := AfterEnsure(s1, r, id, sc);
      OthersUntouched(s, t, r) && TracksRow(t, r) && !Stranded(t, r) && !Orphaned(t, r)
  {
    PersistedIsTracked(s, r, id);
    var s1 := s.(rows := s.rows[r := s.rows[r].(terminalId := Some(id))]);
    ConnectPhase(s1, r, id, sc);
  }

  lemma OpenFound(s: State, r: RowId, sc: Script)
    requires Tracked(s) && Visible(s, r) && s.rows[r].terminalId == None
    requires sc.lookup.None? && HasTerminal(s.cloud, r)
    ensures var t := Open(s, r, sc);
      && OthersUntouched(s, t, r) && TracksRow(t, r) && (Stranded(t, r) <==> Blind(s, r, sc))
      && (Orphaned(t, r) <==> LosesTrack(s, r, sc))
  {
    var id :| Owns(s.cloud, r, id) && EnsureAccount(s, r, sc) == Persist(s, r, id, sc.persisted);
    if sc.persisted { OpenStored(s, r, id, sc); } else { BlindFailure(s, r, Glitch, sc); }
  }

  lemma OpenMissing(s: State, r: RowId, sc: Script)
    requires Tracked(s) && Visible(s, r) && s.rows[r].terminalId == None && NewToAll(s, sc.newId)
    requires sc.lookup.None? && !HasTerminal(s.cloud, r)
    ensures var t := Open(s, r, sc);
      && OthersUntouched(s, t, r) && TracksRow(t, r) && (Stranded(t, r) <==> Blind(s, r, sc))
      && (Orphaned(t, r) <==> LosesTrack(s, r, sc))
  {
    CreatedIsTracked(s, r, sc.newId);
    var s1 := s.(cloud := s.cloud[sc.newId := Terminal(r, true)]);
    match sc.create {
      case None =>
        if sc.persisted { OpenStored(s1, r, sc.newId, sc); } else { BlindFailure(s1, r, Glitch, sc); }
      case Some(f) =>
        BlindFailure(if sc.created then s1 else s, r, f, sc);
    }
  }

  /**
   * The exact condition. From a tracked state with nothing stranded, an open strands the row's terminal
   * if and only if it gives up blind; everything stays tracked and no other row is affected.
   */
  lemma OpenStrandsIff(s: State, r: RowId, sc: Script)
    requires Tracked(s) && Covered(s) && Visible(s, r) && NewToAll(s, sc.newId)
    ensures Tracked(Open(s, r, sc))
    ensures Stranded(Open(s, r, sc), r) <==> Blind(s, r, sc)
    ensures Orphaned(Open(s, r, sc), r) <==> LosesTrack(s, r, sc)
    ensures forall q :: q in s.rows && q != r ==> (Orphaned(Open(s, r, sc), q) <==> Orphaned(s, q))
    ensures forall q :: q in s.rows && q != r ==> !Stranded(Open(s, r, sc), q)
    ensures Open(s, r, sc).rows.Keys == s.rows.Keys
  {
    match s.rows[r].terminalId {
      case Some(id) => OpenKnown(s, r, id, sc);
      case None =>
        if sc.lookup.Some? {
          BlindFailure(s, r, sc.lookup.value, sc);
        } else if HasTerminal(s.cloud, r) {
          OpenFound(s, r, sc);
        } else {
          OpenMissing(s, r, sc);
        }
    }
    TrackedFromRow(s, Open(s, r, sc), r);
  }

  lemma TeardownKnown(s: State, r: RowId, id: CloudId, sc: Script)
    requires Tracked(s) && Covered(s) && r in s.rows && s.rows[r].status == Disconnecting
    requires (id in s.cloud ==> s.cloud[id].owner == r) && KnowsItsTerminal(s, r, Some(id))
    ensures var t := TeardownCloud(s, r, id, sc);
      OthersUntouched(s, t, r) && TracksRow(t, r) && !Stranded(t, r) && (Orphaned(t, r) ==> Orphaned(s, r))
  {
    var t := TeardownCloud(s, r, id, sc);
    DestroyStaysHome(s, r, id, sc.destroy);
    forall k | Owns(t.cloud, r, k) ensures Owns(s.cloud, r, k) {}
  }

  /** A teardown hides the row only once the cloud holds no account of it. */
  lemma TeardownIsSafe(s: State, r: RowId, sc: Script)
    requires Tracked(s) && Covered(s) && r in s.rows && s.rows[r].status == Disconnecting
    ensures Tracked(Teardown(s, r, sc)) && Covered(Teardown(s, r, sc))
    ensures Teardown(s, r, sc).rows.Keys == s.rows.Keys
    ensures forall q :: q in s.rows && Orphaned(Teardown(s, r, sc), q) ==> Orphaned(s, q)
  {
    var t := Teardown(s, r, sc);
    if s.rows[r].terminalId == None && (sc.lookup.Some? || !HasTerminal(s.cloud, r)) {
      assert t.cloud == s.cloud;
      assert TracksRow(t, r) && !Stranded(t, r);
    } else if s.rows[r].terminalId == None {
      var id :| Owns(s.cloud, r, id) && t == TeardownCloud(s, r, id, sc);
      TeardownKnown(s, r, id, sc);
    } else {
      TeardownKnown(s, r, s.rows[r].terminalId.value, sc);
    }
    TrackedFromRow(s, t, r);
    CoveredFromRow(s, t, r);
  }

  lemma CoveredFromRow(s: State, t: State, r: RowId)
    requires Covered(s) && !Stranded(t, r) && t.rows.Keys == s.rows.Keys
    requires forall q :: q in s.rows && q != r ==> (Stranded(t, q) <==> Stranded(s, q))
    ensures Covered(t)
  {
  }

  // ---- when an operation does what it is for ----

  /** The calls stop and delete the account, whether or not they say so. */
  predicate Deletes(cloud: map<CloudId, Terminal>, id: CloudId, sc: DestroyScript) {
    || id !in cloud
    || (sc.get.None? && (cloud[id].running ==> sc.undeploy.None?) && (sc.remove.None? || sc.removed))
  }

  /** The failure that ends the calls, if one does. */
  function Interrupted(cloud: map<CloudId, Terminal>, id: CloudId, sc: DestroyScript): Option<Failure> {
    if sc.get.Some? then sc.get
    else if id !in cloud then None
    else if cloud[id].running && sc.undeploy.Some? then sc.undeploy
    else sc.remove
  }

  /** And the worker knows: nothing failed, or it may ask once more and is told that the account is gone. */
  predicate Confirmed(cloud: map<CloudId, Terminal>, id: CloudId, sc: DestroyScript) {
    && Deletes(cloud, id, sc)
    && match Interrupted(cloud, id, sc)
       case None => true
       case Some(f) => f != BadToken && sc.probe.None?
  }

  /** Destroying an account deletes it, stops its meter and says so, each exactly when the calls allow it. */
  lemma DestroyExactly(cloud: map<CloudId, Terminal>, id: CloudId, sc: DestroyScript)
    ensures var d := Destroy(cloud, id, sc);
      && (id !in d.cloud <==> Deletes(cloud, id, sc))
      && (d.gone <==> Confirmed(cloud, id, sc))
      && (id in d.cloud ==>
            (d.cloud[id].running <==> cloud[id].running && (sc.get.Some? || sc.undeploy.Some?)))
      && (forall k :: k != id ==> (k in d.cloud <==> k in cloud) && (k in cloud ==> d.cloud[k] == cloud[k]))
  {
  }

  /** The teardown gets as far as hiding the row. */
  ghost predicate TearsDown(s: State, r: RowId, sc: Script)
    requires r in s.rows
  {
    && sc.saved
    && match s.rows[r].terminalId
       case Some(id) => Confirmed(s.cloud, id, sc.destroy)
       case None => sc.lookup.None? && forall id :: Owns(s.cloud, r, id) ==> Confirmed(s.cloud, id, sc.destroy)
  }

  /** It leaves the cloud without an account of the row. */
  ghost predicate ClearsCloud(s: State, r: RowId, sc: Script)
    requires r in s.rows
  {
    forall id :: Owns(s.cloud, r, id) ==>
      (s.rows[r].terminalId == Some(id) || (s.rows[r].terminalId.None? && sc.lookup.None?))
      && Deletes(s.cloud, id, sc.destroy)
  }

  lemma TeardownOne(s: State, r: RowId, id: CloudId, sc: Script)
    requires Tracked(s) && r in s.rows && (id in s.cloud ==> Owns(s.cloud, r, id)) && KnowsItsTerminal(s, r, Some(id))
    ensures var t := TeardownCloud(s, r, id, sc);
      && t.rows == (if sc.saved && Confirmed(s.cloud, id, sc.destroy) then s.rows[r := Row(Deactivated, None)]
                    else s.rows)
      && (HasTerminal(t.cloud, r) <==> !Deletes(s.cloud, id, sc.destroy)) && t.backoff == s.backoff
  {
    var t := TeardownCloud(s, r, id, sc);
    DestroyExactly(s.cloud, id, sc.destroy);
    DestroyFacts(s.cloud, id, sc.destroy);
    if k :| Owns(t.cloud, r, k) { assert Owns(s.cloud, r, k) && k == id; }
    if !Deletes(s.cloud, id, sc.destroy) { assert Owns(t.cloud, r, id); }
  }

  /**
   * A teardown hides the row, stores no id and leaves no account exactly when its calls allow it; when all of them
   * succeed it does both. Otherwise the row stays as it was, to be torn down again.
   */
  lemma TeardownExactly(s: State, r: RowId, sc: Script)
    requires Tracked(s) && r in s.rows && s.rows[r].status == Disconnecting
    ensures var t := Teardown(s, r, sc);
      && t.rows == (if TearsDown(s, r, sc) then s.rows[r := Row(Deactivated, None)] else s.rows)
      && (HasTerminal(t.cloud, r) <==> !ClearsCloud(s, r, sc)) && t.backoff == s.backoff
    ensures sc.saved && sc.lookup.None? && sc.destroy.get.None? && sc.destroy.undeploy.None? && sc.destroy.remove.None?
      ==> TearsDown(s, r, sc) && ClearsCloud(s, r, sc)
  {
    var t := Teardown(s, r, sc);
    match s.rows[r].terminalId {
      case Some(id) => TeardownStored(s, r, id, sc);
      case None =>
        if sc.lookup.None? && HasTerminal(s.cloud, r) {
          TeardownFound(s, r, sc);
        } else {
          TeardownNone(s, r, sc);
        }
    }
  }

  lemma TeardownStored(s: State, r: RowId, id: CloudId, sc: Script)
    requires Tracked(s) && r in s.rows && s.rows[r].terminalId == Some(id)
    ensures var t := Teardown(s, r, sc);
      && t.rows == (if TearsDown(s, r, sc) then s.rows[r := Row(Deactivated, None)] else s.rows)
      && (HasTerminal(t.cloud, r) <==> !ClearsCloud(s, r, sc)) && t.backoff == s.backoff
  {
    TeardownOne(s, r, id, sc);
    forall k | Owns(s.cloud, r, k) ensures k == id {}
    assert id in s.cloud ==> Owns(s.cloud, r, id);
  }

  lemma TeardownFound(s: State, r: RowId, sc: Script)
    requires Tracked(s) && r in s.rows && s.rows[r].terminalId == None && sc.lookup.None? && HasTerminal(s.cloud, r)
    ensures var t := Teardown(s, r, sc);
      && t.rows == (if TearsDown(s, r, sc) then s.rows[r := Row(Deactivated, None)] else s.rows)
      && (HasTerminal(t.cloud, r) <==> !ClearsCloud(s, r, sc)) && t.backoff == s.backoff
  {
    var id :| Owns(s.cloud, r, id) && Teardown(s, r, sc) == TeardownCloud(s, r, id, sc);
    forall k | Owns(s.cloud, r, k) ensures k == id {}
    TeardownOne(s, r, id, sc);
  }

  lemma TeardownNone(s: State, r: RowId, sc: Script)
    requires r in s.rows && s.rows[r].terminalId == None && (sc.lookup.Some? || !HasTerminal(s.cloud, r))
    ensures var t := Teardown(s, r, sc);
      && t.rows == (if TearsDown(s, r, sc) then s.rows[r := Row(Deactivated, None)] else s.rows)
      && (HasTerminal(t.cloud, r) <==> !ClearsCloud(s, r, sc)) && t.backoff == s.backoff
  {
    if sc.lookup.None? {
      forall id ensures !Owns(s.cloud, r, id) { assert Owns(s.cloud, r, id) ==> HasTerminal(s.cloud, r); }
    } else if HasTerminal(s.cloud, r) {
      var id :| Owns(s.cloud, r, id);
    }
  }

  /**
   * What handleFailure does of an account it knows: a rejected token changes nothing; it deletes the account only
   * when it gives up, hides the row exactly when that is confirmed and saved, and otherwise leaves the row alone.
   */
  lemma FailureExactly(s: State, r: RowId, known: Option<CloudId>, f: Failure, sc: Script)
    requires r in s.rows
    ensures var t := HandleFailure(s, r, known, KindOf(f), sc);
      var gone := known.None? || Confirmed(s.cloud, known.value, sc.destroy);
      && (f == BadToken ==> t == s)
      && t.rows == (if GivesUp(s, r, f) && gone && sc.saved then s.rows[r := Row(Deactivated, None)] else s.rows)
      && t.cloud.Keys == (if GivesUp(s, r, f) && known.Some? && Deletes(s.cloud, known.value, sc.destroy)
                          then s.cloud.Keys - {known.value} else s.cloud.Keys)
      && (!GivesUp(s, r, f) ==> t.cloud == s.cloud)
      && (f == Glitch ==> t.backoff == (if GivesUp(s, r, f) && gone then s.backoff - {r}
                                        else s.backoff[r := Attempts(s, r) + 1]))
      && (f == BadAccount ==> t.backoff == s.backoff)
  {
    if known.Some? { DestroyKeys(s.cloud, known.value, sc.destroy); }
  }

  lemma DestroyKeys(cloud: map<CloudId, Terminal>, id: CloudId, sc: DestroyScript)
    ensures var d := Destroy(cloud, id, sc);
      && (d.gone <==> Confirmed(cloud, id, sc))
      && d.cloud.Keys == if Deletes(cloud, id, sc) then cloud.Keys - {id} else cloud.Keys
  {
    DestroyExactly(cloud, id, sc);
  }

  /** A cloud account that vanished: the id is cleared for a fresh create, or the row hidden after the last attempt. */
  lemma VanishedExactly(s: State, r: RowId, known: Option<CloudId>, sc: Script)
    requires r in s.rows
    ensures var t := HandleFailure(s, r, known, NotFound, sc);
      var last := s.rows[r].status == Connecting && Attempts(s, r) >= CONNECT_MAX_ATTEMPTS;
      && t.cloud == s.cloud && t.backoff == (if last then s.backoff - {r} else s.backoff)
      && t.rows == if !sc.saved then s.rows
                   else if last then s.rows[r := Row(Deactivated, None)]
                   else s.rows[r := s.rows[r].(terminalId := None)]
  {
  }

  /** The row's account is known, found or created, and its id stored. */
  ghost predicate Ensures(s: State, r: RowId, sc: Script)
    requires r in s.rows
  {
    match s.rows[r].terminalId
    case Some(id) => sc.get.None? && id in s.cloud
    case None => sc.lookup.None? && sc.persisted && (HasTerminal(s.cloud, r) || sc.create.None?)
  }

  /** The whole of an open that succeeds: a healthy row, a running account of its own, no backoff. */
  ghost predicate Streams(t: State, r: RowId) {
    && r in t.rows && t.rows[r].status == Healthy && t.rows[r].terminalId.Some? && r !in t.backoff
    && t.rows[r].terminalId.value in t.cloud && t.cloud[t.rows[r].terminalId.value] == Terminal(r, true)
  }

  ghost predicate OpensAsTold(s: State, r: RowId, sc: Script)
    requires r in s.rows
  {
    var succeeds := Ensures(s, r, sc) && sc.connect.None? && sc.saved;
    && (succeeds ==> Streams(Open(s, r, sc), r))
    && (s.rows[r].status == Connecting && Streams(Open(s, r, sc), r) ==> succeeds)
  }

  lemma ConnectExactly(s: State, r: RowId, id: CloudId, sc: Script)
    requires r in s.rows && id in s.cloud
    ensures sc.connect.None? && sc.saved ==> Streams(AfterEnsure(s, r, id, sc), r)
    ensures s.rows[r].status == Connecting && Streams(AfterEnsure(s, r, id, sc), r) ==> sc.connect.None? && sc.saved
  {
  }

  lemma OpensStored(s: State, r: RowId, sc: Script)
    requires r in s.rows && s.rows[r].terminalId.Some?
    ensures OpensAsTold(s, r, sc)
  {
    var id := s.rows[r].terminalId.value;
    if sc.get.None? && id in s.cloud { ConnectExactly(s, r, id, sc); }
  }

  lemma OpensFound(s: State, r: RowId, sc: Script)
    requires r in s.rows && s.rows[r].terminalId.None? && sc.lookup.None? && HasTerminal(s.cloud, r)
    ensures OpensAsTold(s, r, sc)
  {
    var id :| Owns(s.cloud, r, id) && EnsureAccount(s, r, sc) == Persist(s, r, id, sc.persisted);
    if sc.persisted { ConnectExactly(s.(rows := s.rows[r := s.rows[r].(terminalId := Some(id))]), r, id, sc); }
  }

  lemma OpensMissing(s: State, r: RowId, sc: Script)
    requires r in s.rows && s.rows[r].terminalId.None? && (sc.lookup.Some? || !HasTerminal(s.cloud, r))
    ensures OpensAsTold(s, r, sc)
  {
    if sc.lookup.None? && sc.create.None? && sc.persisted {
      var s1 := s.(cloud := s.cloud[sc.newId := Terminal(r, true)]);
      ConnectExactly(s1.(rows := s1.rows[r := s1.rows[r].(terminalId := Some(sc.newId))]), r, sc.newId, sc);
    }
  }

  /**
   * An open that gets hold of the account, connects and saves the row makes it healthy, with its account running,
   * its id stored and the backoff reset; nothing else makes a connecting row healthy.
   */
  lemma OpenExactly(s: State, r: RowId, sc: Script)
    requires r in s.rows
    ensures Ensures(s, r, sc) && sc.connect.None? && sc.saved ==> Streams(Open(s, r, sc), r)
    ensures s.rows[r].status == Connecting ==>
      (Streams(Open(s, r, sc), r) <==> Ensures(s, r, sc) && sc.connect.None? && sc.saved)
  {
    if s.rows[r].terminalId.Some? { OpensStored(s, r, sc); }
    else if sc.lookup.None? && HasTerminal(s.cloud, r) { OpensFound(s, r, sc); }
    else { OpensMissing(s, r, sc); }
  }

  // ---- whole runs ----

  datatype Event =
    | OpenRow(row: RowId, script: Script)
    | TeardownRow(row: RowId, script: Script)
    | NewRow(row: RowId)                        // the app captured credentials
    | Request(row: RowId, connect: bool)        // the app asks to connect or to disconnect
    | CloudVanishes(id: CloudId)                // an account deleted outside this service

  ghost predicate Enabled(s: State, e: Event) {
    match e
    case OpenRow(r, sc) => Visible(s, r) && NewToAll(s, sc.newId)
    case TeardownRow(r, _) => r in s.rows && s.rows[r].status == Disconnecting
    case NewRow(r) => r !in s.rows
    case Request(r, _) => r in s.rows
    case CloudVanishes(_) => true
  }

  ghost function Step(s: State, e: Event): State {
    if !Enabled(s, e) then s
    else match e
      case OpenRow(r, sc) => Open(s, r, sc)
      case TeardownRow(r, sc) => Teardown(s, r, sc)
      case NewRow(r) => s.(rows := s.rows[r := Row(Connecting, None)])
      case Request(r, connect) =>
        s.(rows := s.rows[r := s.rows[r].(status := if connect then Connecting else Disconnecting)])
      case CloudVanishes(id) => s.(cloud := s.cloud - {id})
  }

  ghost function Run(s: State, es: seq<Event>): State
    decreases |es|
  {
    if es == [] then s else Run(Step(s, es[0]), es[1..])
  }

  ghost predicate BlindStep(s: State, e: Event) {
    e.OpenRow? && Enabled(s, e) && Blind(s, e.row, e.script)
  }

  ghost predicate NeverBlind(s: State, es: seq<Event>)
    decreases |es|
  {
    es != [] ==> !BlindStep(s, es[0]) && NeverBlind(Step(s, es[0]), es[1..])
  }

  ghost predicate AlwaysCovered(s: State, es: seq<Event>)
    decreases |es|
  {
    Covered(s) && (es != [] ==> AlwaysCovered(Step(s, es[0]), es[1..]))
  }

  lemma StepTracked(s: State, e: Event)
    requires Tracked(s) && Covered(s)
    ensures Tracked(Step(s, e)) && (Covered(Step(s, e)) <==> !BlindStep(s, e))
  {
    if Enabled(s, e) {
      match e {
        case OpenRow(r, sc) =>
          OpenStrandsIff(s, r, sc);
          assert BlindStep(s, e) <==> Stranded(Open(s, r, sc), r);
        case TeardownRow(r, sc) => TeardownIsSafe(s, r, sc);
        case NewRow(r) => EnvironmentStep(s, e);
        case Request(r, connect) => EnvironmentStep(s, e);
        case CloudVanishes(id) => EnvironmentStep(s, e);
      }
    }
  }

  lemma EnvironmentStep(s: State, e: Event)
    requires Tracked(s) && Covered(s) && Enabled(s, e) && !e.OpenRow? && !e.TeardownRow?
    ensures Tracked(Step(s, e)) && Covered(Step(s, e))
  {
    var t := Step(s, e);
    forall r | Stranded(t, r) ensures Stranded(s, r) {
      var id :| Owns(t.cloud, r, id);
      assert Owns(s.cloud, r, id);
    }
  }

  /**
   * Billing safety over whole runs, exactly: no row the worker has hidden ever has a cloud account left
   * if and only if no attempt of the run gives up blind.
   */
  lemma {:induction false} NeverStrandedIff(s: State, es: seq<Event>)
    requires Tracked(s) && Covered(s)
    ensures AlwaysCovered(s, es) <==> NeverBlind(s, es)
    decreases |es|
  {
    if es != [] {
      StepTracked(s, es[0]);
      if Covered(Step(s, es[0])) { NeverStrandedIff(Step(s, es[0]), es[1..]); }
    }
  }

  /** Create and persist behave as one step: no create is lost after taking effect, no id goes unsaved. */
  predicate CreatePersists(e: Event) {
    e.OpenRow? ==> e.script.persisted && (e.script.create.Some? ==> !e.script.created)
  }

  ghost predicate NoOrphans(s: State) {
    forall r :: r in s.rows ==> !Orphaned(s, r)
  }

  lemma StepStored(s: State, e: Event)
    requires Tracked(s) && Covered(s) && NoOrphans(s) && CreatePersists(e)
    ensures var t := Step(s, e); Tracked(t) && Covered(t) && NoOrphans(t)
  {
    StepTracked(s, e);
    var t := Step(s, e);
    if Enabled(s, e) && e.OpenRow? {
      assert !Orphaned(s, e.row);
      OpenStrandsIff(s, e.row, e.script);
    } else if Enabled(s, e) && e.TeardownRow? {
      TeardownIsSafe(s, e.row, e.script);
    } else {
      forall r | r in t.rows && Orphaned(t, r) ensures r in s.rows && Orphaned(s, r) {
        var id :| Owns(t.cloud, r, id);
        assert Owns(s.cloud, r, id);
      }
    }
  }

  /**
   * With create and persist as one step, in every reachable state every cloud account named for a row
   * has the id the row stores, and a hidden row has no cloud account.
   */
  lemma {:induction false} EveryTerminalIsStored(s: State, es: seq<Event>)
    requires Tracked(s) && Covered(s) && NoOrphans(s) && forall e :: e in es ==> CreatePersists(e)
    ensures var t := Run(s, es);
      && Tracked(t)
      && (forall id :: id in t.cloud ==> t.rows[t.cloud[id].owner].terminalId == Some(id))
      && (forall r, id :: r in t.rows && t.rows[r].status == Deactivated && id in t.cloud ==> t.cloud[id].owner != r)
    decreases |es|
  {
    if es == [] {
      forall id | id in s.cloud ensures s.rows[s.cloud[id].owner].terminalId == Some(id) {
        assert Owns(s.cloud, s.cloud[id].owner, id);
        assert !Orphaned(s, s.cloud[id].owner);
      }
      forall r, id | r in s.rows && s.rows[r].status == Deactivated && id in s.cloud ensures s.cloud[id].owner != r {
        assert !Stranded(s, r);
        assert !Owns(s.cloud, r, id);
      }
    } else {
      StepStored(s, es[0]);
      EveryTerminalIsStored(Step(s, es[0]), es[1..]);
    }
  }

  /** Every call of the operation answers 401, and none takes effect. */
  predicate TokenRejected(e: Event) {
    (e.OpenRow? || e.TeardownRow?) ==>
      var sc := e.script;
      && sc.get == Some(BadToken) && sc.lookup == Some(BadToken) && sc.create == Some(BadToken) && !sc.created
      && sc.connect == Some(BadToken) && sc.destroy.get == Some(BadToken)
  }

  /** The events that are not the worker's: the app's, and accounts deleted outside the service. */
  function Outside(es: seq<Event>): seq<Event>
    decreases |es|
  {
    if es == [] then []
    else (if es[0].OpenRow? || es[0].TeardownRow? then [] else [es[0]]) + Outside(es[1..])
  }

  lemma RejectedStepIsIdle(s: State, e: Event)
    requires TokenRejected(e) && (e.OpenRow? || e.TeardownRow?)
    ensures Step(s, e) == s
  {
    if Enabled(s, e) && e.TeardownRow? && s.rows[e.row].terminalId.Some? {
      assert Teardown(s, e.row, e.script) == s;
    }
  }

  /**
   * While every call answers 401 the worker changes no row and removes no cloud account: between the app's own
   * events its steps are idle, so the run is that of those events alone.
   */
  lemma {:induction false} RejectedTokenChangesNothing(s: State, es: seq<Event>)
    requires forall e :: e in es ==> TokenRejected(e)
    ensures Run(s, es) == Run(s, Outside(es))
    decreases |es|
  {
    if es != [] {
      var e := es[0];
      assert e in es;
      RejectedTokenChangesNothing(Step(s, e), es[1..]);
      if e.OpenRow? || e.TeardownRow? {
        RejectedStepIsIdle(s, e);
        assert Outside(es) == [] + Outside(es[1..]) == Outside(es[1..]);
      } else {
        assert ([e] + Outside(es[1..]))[1..] == Outside(es[1..]);
      }
    }
  }

  /**
   * The invariant in the service's own words fails without that condition: at the last attempt of an
   * initial connect a create that took effect, but whose answer was lost, is followed by the write that
   * hides the row, and nothing was destroyed.
   */
  lemma LostCreateStrandsTerminal(r: RowId, id: CloudId, sc: Script)
    requires sc.lookup.None? && sc.create == Some(Glitch) && sc.created && sc.newId == id && sc.saved
    ensures var s := State(map[r := Row(Connecting, None)], map[], map[r := CONNECT_MAX_ATTEMPTS - 1]);
      Tracked(s) && Covered(s) && Enabled(s, OpenRow(r, sc)) && Stranded(Step(s, OpenRow(r, sc)), r)
  {
    var s := State(map[r := Row(Connecting, None)], map[], map[r := CONNECT_MAX_ATTEMPTS - 1]);
    assert Blind(s, r, sc);
    OpenStrandsIff(s, r, sc);
  }

  // ---- the service's methods ----

  /** What ensureAccount hands back: the id, or the error and the id its caller knows. */
  datatype Answer = Resolved(id: CloudId) | Rejected(known: Option<CloudId>, kind: Kind)

  class BillingManager {
    var rows: map<RowId, Row>
    var cloud: map<CloudId, Terminal>
    var backoff: map<RowId, nat>

    ghost function View(): State
      reads this
    {
      State(rows, cloud, backoff)
    }

    method AttemptsOf(r: RowId) returns (n: nat)
      ensures n == Attempts(View(), r)
    {
      n := if r in backoff then backoff[r] else 0;
    }

    /** False only when the terminal may still be alive. */
    method DestroyCloudAccount(id: CloudId, sc: DestroyScript) returns (gone: bool)
      modifies this`cloud
      ensures Destroyed(cloud, gone) == Destroy(old(cloud), id, sc)
    {
      var failure := sc.get;
      if failure.None? {
        if id !in cloud { return true; }
        if cloud[id].running { failure := sc.undeploy; }
        if failure.None? {
          cloud := cloud[id := cloud[id].(running := false)];
          if sc.remove.None? || sc.removed { cloud := cloud - {id}; }
          if sc.remove.None? { return true; }
          failure := sc.remove;
        }
      }
      if failure == Some(BadToken) { return false; }
      gone := sc.probe.None? && id !in cloud;
    }

    method DeactivateRow(r: RowId, saved: bool)
      modifies this`rows
      ensures View() == Deactivate(old(View()), r, saved)
    {
      if saved { rows := rows[r := Row(Deactivated, None)]; }
    }

    method HandleOpenFailure(r: RowId, known: Option<CloudId>, kind: Kind, sc: Script)
      requires r in rows
      modifies this
      ensures View() == HandleFailure(old(View()), r, known, kind, sc)
    {
      if kind == GlobalAuth { return; }
      var attempts := AttemptsOf(r);
      if kind == NotFound {
        if rows[r].status == Connecting && attempts >= CONNECT_MAX_ATTEMPTS {
          backoff := backoff - {r};
          DeactivateRow(r, sc.saved);
        } else if sc.saved {
          rows := rows[r := rows[r].(terminalId := None)];
        }
        return;
      }
      if kind == FatalAccount {
        if known.Some? {
          var destroyed := DestroyCloudAccount(known.value, sc.destroy);
          if !destroyed { return; }
        }
        DeactivateRow(r, sc.saved);
        return;
      }
      attempts := attempts + 1;
      backoff := backoff[r := attempts];
      if rows[r].status == Connecting && attempts >= CONNECT_MAX_ATTEMPTS {
        if known.Some? {
          var destroyed := DestroyCloudAccount(known.value, sc.destroy);
          if !destroyed { return; }
        }
        backoff := backoff - {r};
        DeactivateRow(r, sc.saved);
      }
    }

    /** The row's cloud account, by its deterministic name. */
    method FindByName(r: RowId) returns (found: Option<CloudId>)
      ensures found.Some? ==> Owns(cloud, r, found.value)
      ensures found.None? ==> !HasTerminal(cloud, r)
    {
      var todo := cloud.Keys;
      while todo != {}
        invariant todo <= cloud.Keys
        invariant forall id :: Owns(cloud, r, id) ==> id in todo
        decreases todo
      {
        var id :| id in todo;
        if cloud[id].owner == r { return Some(id); }
        todo := todo - {id};
      }
      found := None;
    }

    method PersistAccountId(r: RowId, id: CloudId, persisted: bool) returns (a: Answer)
      requires r in rows
      modifies this`rows
      ensures match Persist(old(View()), r, id, persisted)
        case Ready(s, k) => View() == s && a == Resolved(k)
        case Thrown(s, known, kind) => View() == s && a == Rejected(known, kind)
    {
      if !persisted { return Rejected(None, Transient); }
      rows := rows[r := rows[r].(terminalId := Some(id))];
      a := Resolved(id);
    }

    method EnsureCloudAccount(r: RowId, sc: Script) returns (a: Answer)
      requires Tracked(View()) && r in rows
      modifies this
      ensures r in rows
      ensures match EnsureAccount(old(View()), r, sc)
        case Ready(s, k) => View() == s && a == Resolved(k)
        case Thrown(s, known, kind) => View() == s && a == Rejected(known, kind)
    {
      match rows[r].terminalId {
        case Some(id) =>
          a := if sc.get.Some? then Rejected(Some(id), KindOf(sc.get.value))
               else if id !in cloud then Rejected(Some(id), NotFound) else Resolved(id);
        case None =>
          if sc.lookup.Some? { return Rejected(None, KindOf(sc.lookup.value)); }
          var adopted := FindByName(r);
          if adopted.Some? {
            a := PersistAccountId(r, adopted.value, sc.persisted);
            return;
          }
          if sc.create.None? || sc.created { cloud := cloud[sc.newId := Terminal(r, true)]; }
          if sc.create.Some? { return Rejected(None, KindOf(sc.create.value)); }
          a := PersistAccountId(r, sc.newId, sc.persisted);
      }
    }

    method OpenAccount(r: RowId, sc: Script)
      requires Tracked(View()) && r in rows
      modifies this
      ensures View() == Open(old(View()), r, sc)
    {
      var a := EnsureCloudAccount(r, sc);
      if a.Rejected? {
        HandleOpenFailure(r, a.known, a.kind, sc);
        return;
      }
      cloud := cloud[a.id := Terminal(r, true)];
      if sc.connect.Some? {
        HandleOpenFailure(r, Some(a.id), KindOf(sc.connect.value), sc);
        return;
      }
      backoff := backoff - {r};
      if sc.saved {
        rows := rows[r := Row(Healthy, Some(a.id))];
      } else {
        HandleOpenFailure(r, Some(a.id), Transient, sc);
      }
    }

    method TeardownAccount(r: RowId, sc: Script)
      requires Tracked(View()) && r in rows
      modifies this
      ensures View() == Teardown(old(View()), r, sc)
    {
      var cloudId := rows[r].terminalId;
      if cloudId.None? {
        if sc.lookup.Some? { return; }
        cloudId := FindByName(r);
      }
      if cloudId.Some? {
        var destroyed := DestroyCloudAccount(cloudId.value, sc.destroy);
        if !destroyed { return; }
      }
      DeactivateRow(r, sc.saved);
    }
  }
}
