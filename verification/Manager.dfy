/** The session operations behind the HTTP API and the sweeper: create with rollback, read,
    wake, restart, and the single decommission path, over a cluster and a connector that may
    fail any call. */
module Manager {
  import opened Wrappers
  import opened GoTime
  import opened Network
  import opened Kube
  import opened Relay
  import opened Knobs
  import opened SessionStep
  import opened Fleet

  datatype Defaults = Defaults(platform: string, botId: string, wakeBaseUrl: string)

  /** A chat to bind; an empty platform means the default one. */
  datatype CreateRequest = CreateRequest(
    id: string,
    ttlSeconds: Option<Int64>,
    idleTimeoutSeconds: Option<Int64>,
    displayName: string,
    routes: seq<Chat>,
    connector: bool)

  datatype GetCalls = GetCalls(get: Net, sandbox: Net, consult: Consult)

  datatype CreateCalls = CreateCalls(
    newId: string,
    create: Net,
    createdAt: Time,
    provision: Net,
    setRoute: nat -> Net,
    purge: Net,
    delete: Net,
    get: GetCalls)

  datatype RestartCalls = RestartCalls(get: Net, suspend: Net, suspendAt: Time, resume: Net, resumeAt: Time)

  datatype SessionView = SessionView(
    id: string,
    state: State,
    createdAt: Option<Time>,
    ttlSeconds: int,
    idleTimeoutSeconds: int,
    displayName: string,
    operatingMode: Mode)

  /** A DNS-1123 label of at most 52 characters. */
  predicate ValidId(id: string) {
    && 1 <= |id| <= 52
    && (forall i :: 0 <= i < |id| ==> 'a' <= id[i] <= 'z' || '0' <= id[i] <= '9' || id[i] == '-')
    && id[0] != '-' && id[|id| - 1] != '-'
  }

  function KnobFor(seconds: Option<Int64>): string {
    if seconds.None? then "" else KnobText(seconds.value)
  }

  function UsesConnector(req: CreateRequest): bool {
    req.connector || |req.routes| > 0
  }

  function NewClaim(id: string, req: CreateRequest): Claim {
    Claim(id, None, false, "", KnobFor(req.ttlSeconds), KnobFor(req.idleTimeoutSeconds), req.displayName,
          UsesConnector(req), Absent)
  }

  function ChatIds(chats: seq<Chat>): seq<string> {
    seq(|chats|, i requires 0 <= i < |chats| => chats[i].chatId)
  }

  function NewRegistration(d: Defaults, id: string, req: CreateRequest): Registration {
    Registration(d.platform, d.botId, ChatIds(req.routes), d.wakeBaseUrl + "/wake/" + id, req.displayName)
  }

  /** The chat a requested route binds, the default platform filled in. */
  function ChatFor(d: Defaults, chat: Chat): Chat {
    if chat.platform == "" then chat.(platform := d.platform) else chat
  }

  /** The routes after binding `chats` one by one until a call fails, and whether all went through. */
  function BindAll(d: Defaults, routes: map<Chat, string>, id: string, chats: seq<Chat>,
                   nets: nat -> Net): (map<Chat, string>, bool)
  {
    if chats == [] then (routes, true)
    else
      var n := |chats| - 1;
      var (m, ok) := BindAll(d, routes, id, chats[..n], nets);
      if !ok then (m, false)
      else (if nets(n).Applied() then m[ChatFor(d, chats[n]) := id] else m, nets(n).Delivered?)
  }

  /** `Rejected` stops at or before the claim, `RolledBack` after it. */
  datatype Outcome = Rejected(err: Error) | RolledBack | Made

  function DeleteClaimFrom(w: World, id: string, net: Net): World {
    w.(claims := if net.Applied() then w.claims - {id} else w.claims,
       sandboxes := SandboxesAfterDelete(w.claims, w.sandboxes, id, net))
  }

  function PurgeFrom(w: World, id: string, net: Net): World {
    w.(registered := if net.Applied() then w.registered - {id} else w.registered,
       routes := RoutesAfterDelete(w.registered, w.routes, id, net))
  }

  function ProvisionIn(w: World, d: Defaults, id: string, req: CreateRequest, net: Net): World {
    w.(registered := if net.Applied()
                     then w.registered[id := Coalesce(Lookup(w.registered, id), NewRegistration(d, id, req))]
                     else w.registered)
  }

  function ProvisionSpec(d: Defaults, w: World, id: string, req: CreateRequest, k: CreateCalls): (World, Outcome) {
    var w1 := ProvisionIn(w, d, id, req, k.provision);
    var (routes, bound) :=
      if k.provision.Delivered? then BindAll(d, w1.routes, id, req.routes, k.setRoute) else (w1.routes, false);
    var w2 := w1.(routes := routes);
    if bound then (w2, Made)
    else (DeleteClaimFrom(PurgeFrom(w2, id, k.purge), id, k.delete), RolledBack)
  }

  function IdFor(req: CreateRequest, k: CreateCalls): string {
    if req.id == "" then k.newId else req.id
  }

  /** Create, up to the final read. */
  function CreateSpec(d: Defaults, enabled: bool, bind: bool, w: World, req: CreateRequest, k: CreateCalls):
    (World, Outcome)
  {
    var id := IdFor(req, k);
    if req.id != "" && !ValidId(req.id) then (w, Rejected(InvalidId))
    else if UsesConnector(req) && !enabled then (w, Rejected(Disabled))
    else
      var w1 := w.(claims := ClaimsAfterCreate(w.claims, NewClaim(id, req), k.createdAt, bind, k.create),
                   sandboxes := SandboxesAfterCreate(w.claims, w.sandboxes, NewClaim(id, req), k.createdAt, bind,
                                                     k.create));
      var err := CreateReply(w.claims, id, k.create);
      if err.Some? then (w1, Rejected(err.value))
      else if !UsesConnector(req) then (w1, Made)
      else ProvisionSpec(d, w1, id, req, k)
  }

  function Viewed(cfg: Settings, c: Claim, sandbox: Option<Sandbox>): SessionView {
    SessionView(c.name, Derive(c.terminating, sandbox), c.createdAt, SecondsShown(EffectiveTtl(cfg, c)),
                SecondsShown(EffectiveIdleTimeout(cfg, c)), c.displayName,
                if sandbox.None? || sandbox.value.mode.Unset? then (if sandbox.None? then Unset else Running)
                else sandbox.value.mode)
  }

  /** Whether reading this session consults the connector. */
  predicate Consults(cfg: Settings, w: World, id: string, k: GetCalls) {
    Reply(k.get, Lookup(w.claims, id)).None? && w.claims[id].connector && cfg.connectorEnabled
  }

  function GetSpec(cfg: Settings, w: World, id: string, k: GetCalls): Result<SessionView, Error> {
    match Reply(k.get, Lookup(w.claims, id))
    case Some(err) => Err(err)
    case None =>
      var c := w.claims[id];
      Ok(Viewed(cfg, c, SandboxRead(Lookup(w.sandboxes, c.Resolve()), k.sandbox)))
  }

  /** What Create's caller is told: the final read of the new session can fail too. */
  function CreateAnswer(cfg: Settings, w: World, id: string, outcome: Outcome, k: CreateCalls):
    Result<SessionView, Error>
  {
    match outcome
    case Rejected(err) => Err(err)
    case RolledBack => Err(Unreachable)
    case Made => GetSpec(cfg, w, id, k.get)
  }

  function RestartCall(v: View, k: RestartCalls): View {
    if Reply(k.get, v.claim).Some? then v
    else v.(sandbox := Patched(Patched(v.sandbox, Suspended, k.suspendAt, k.suspend), Running, k.resumeAt, k.resume))
  }

  /** The operations on an existing session, as functions of its own part of the world. */
  function WakeIn(w: World, id: string, k: WakeCalls): World {
    if id !in w.claims then w
    else Put(w, SlotOf(w.claims[id]), WakeCall(PartOf(w, SlotOf(w.claims[id])), k))
  }

  function RestartIn(w: World, id: string, k: RestartCalls): World {
    if id !in w.claims then w
    else Put(w, SlotOf(w.claims[id]), RestartCall(PartOf(w, SlotOf(w.claims[id])), k))
  }

  function DecommissionIn(enabled: bool, w: World, id: string, k: DecommissionCalls): World {
    if id !in w.claims then w
    else Put(w, SlotOf(w.claims[id]), Decommission(enabled, PartOf(w, SlotOf(w.claims[id])), k).view)
  }

  /** The sandboxes after one operating-mode patch, the controller's conditions included. */
  function Moded(sandboxes: map<string, Sandbox>, name: string, mode: Mode, at: Time, net: Net): map<string, Sandbox> {
    if net == Refused || name !in sandboxes then sandboxes
    else
      var up := mode == Running;
      sandboxes[name := Sandbox(mode, up, Some(at), mode == Suspended, sandboxes[name].serviceFQDN)]
  }

  /** A wake of a claim that can be read sets its sandbox running, and then clears a wake-at the claim
      had, if the first call was answered; the rest of the world stays. */
  lemma WakeWrites(w: World, id: string, k: WakeCalls)
    requires Keyed(w.claims)
    ensures if !k.get.Delivered? || id !in w.claims then WakeIn(w, id, k) == w
      else
        var c := w.claims[id];
        var name := if c.sandboxName == "" then id else c.sandboxName;
        var clears := k.patch.Delivered? && name in w.sandboxes && c.wakeAt != Absent && k.clear != Refused;
        WakeIn(w, id, k) == w.(sandboxes := Moded(w.sandboxes, name, Running, k.patchAt, k.patch),
                               claims := if clears then w.claims[id := c.(wakeAt := Absent)] else w.claims)
  {
    if id in w.claims {
      var c := w.claims[id];
      var s := SlotOf(c);
      var v := PartOf(w, s);
      var sandbox := Patched(v.sandbox, Running, k.patchAt, k.patch);
      PutGet(w, s);
      PutSandbox(w, s, sandbox);
      PutClaimAndSandbox(w, s, Stamped(v.claim, Absent, k.clear), sandbox);
      PatchMakesModed(w.sandboxes, s.sandbox, Running, k.patchAt, k.patch);
      hide Put, Patched, Moded;
    }
  }

  /** A restart of a claim that can be read patches its sandbox twice, whatever becomes of the first
      patch; the rest of the world stays. */
  lemma RestartWrites(w: World, id: string, k: RestartCalls)
    requires Keyed(w.claims)
    ensures if !k.get.Delivered? || id !in w.claims then RestartIn(w, id, k) == w
      else
        var c := w.claims[id];
        var name := if c.sandboxName == "" then id else c.sandboxName;
        RestartIn(w, id, k)
          == w.(sandboxes := Moded(Moded(w.sandboxes, name, Suspended, k.suspendAt, k.suspend), name, Running,
                                   k.resumeAt, k.resume))
  {
    if id in w.claims {
      var s := SlotOf(w.claims[id]);
      var asleep := Patched(Lookup(w.sandboxes, s.sandbox), Suspended, k.suspendAt, k.suspend);
      PutGet(w, s);
      PutSandbox(w, s, Patched(asleep, Running, k.resumeAt, k.resume));
      var first := Moded(w.sandboxes, s.sandbox, Suspended, k.suspendAt, k.suspend);
      PatchMakesModed(w.sandboxes, s.sandbox, Suspended, k.suspendAt, k.suspend);
      PatchMakesModed(first, s.sandbox, Running, k.resumeAt, k.resume);
      assert Lookup(first, s.sandbox) == asleep;
      hide Put, Patched, Moded;
    }
  }

  lemma PatchMakesModed(sandboxes: map<string, Sandbox>, name: string, mode: Mode, at: Time, net: Net)
    requires mode != Unset
    ensures Moded(sandboxes, name, mode, at, net)
         == Store(sandboxes, name, Patched(Lookup(sandboxes, name), mode, at, net))
    ensures Patched(Lookup(sandboxes, name), mode, at, net).Some? <==> name in sandboxes
  {
  }

  class SessionManager {
    const cluster: Cluster
    const hub: Hub
    const cfg: Settings
    const defaults: Defaults

    var cached: Option<Cached>

    /** The cache's side of the history. */
    ghost var log: seq<Obs>

    constructor (cluster: Cluster, hub: Hub, cfg: Settings, defaults: Defaults)
      requires Keyed(cluster.claims)
      ensures Valid() && this.cluster == cluster && this.hub == hub && this.cfg == cfg && this.defaults == defaults
      ensures cached == None && log == []
    {
      this.cluster, this.hub, this.cfg, this.defaults := cluster, hub, cfg, defaults;
      cached, log := None, [];
    }

    ghost predicate Valid()
      reads cluster
    {
      Keyed(cluster.claims)
    }

    /** Cluster and connector; the quiet clocks belong to the sweeper. */
    ghost function Snapshot(): World
      reads cluster, hub
    {
      World(cluster.claims, cluster.sandboxes, hub.instances, hub.routes, map[])
    }

    method Invalidate()
      modifies this
      ensures cached == None && log == old(log) + [CacheCleared]
    {
      cached := None;
      log := log + [CacheCleared];
    }

    /** The connector's readout by gateway id, cached briefly; None is "unknown". */
    method InstancesNow(q: Consult) returns (byId: Option<map<string, Instance>>)
      modifies this
      ensures byId == Instances(cfg.connectorEnabled, old(cached), q)
      ensures cached == CachedAfter(cfg.connectorEnabled, old(cached), q)
      ensures log == old(log) + ConsultObs(cfg.connectorEnabled, old(cached), q)
    {
      if !cfg.connectorEnabled {
        assert log == log + [];
        return None;
      }
      if cached.Some? && Sub(q.checkAt, cached.value.at) < INSTANCE_CACHE_TTL {
        assert log == log + [];
        return Some(cached.value.byId);
      }
      if q.reply.None? {
        assert log == log + [];
        return None;
      }
      var rows := q.reply.value;
      var index: map<string, Instance> := map[];
      for i := 0 to |rows|
        invariant index == IndexById(rows[..i])
        invariant cached == old(cached) && log == old(log)
      {
        index := index[rows[i].gatewayId := rows[i]];
        assert rows[..i + 1][..i] == rows[..i];
      }
      assert rows[..|rows|] == rows;
      cached := Some(Cached(index, q.replyAt));
      log := log + [Listed(rows, q.replyAt)];
      byId := Some(index);
    }

    /** The sandbox a claim resolves to; any failure reads as "none". */
    method SandboxOf(claim: Claim, net: Net) returns (sandbox: Option<Sandbox>)
      ensures sandbox == SandboxRead(Lookup(cluster.sandboxes, claim.Resolve()), net)
    {
      var name := if claim.sandboxName == "" then claim.name else claim.sandboxName;
      var found, err := cluster.GetSandbox(name, net);
      sandbox := found;
    }

    method Get(id: string, k: GetCalls) returns (r: Result<SessionView, Error>)
      requires Valid()
      modifies this
      ensures r == GetSpec(cfg, Snapshot(), id, k)
      ensures var looks := k.get.Delivered? && id in cluster.claims && cluster.claims[id].connector
                           && cfg.connectorEnabled;
        && cached == (if looks then CachedAfter(cfg.connectorEnabled, old(cached), k.consult) else old(cached))
        && log == old(log) + if looks then ConsultObs(cfg.connectorEnabled, old(cached), k.consult) else []
    {
      var claim, err := cluster.GetClaim(id, k.get);
      if err.Some? {
        assert log == log + [];
        return Err(err.value);
      }
      var c := claim.value;
      var sandbox := SandboxOf(c, k.sandbox);
      if c.connector && cfg.connectorEnabled {
        var byId := InstancesNow(k.consult);
      } else {
        assert log == log + [];
      }
      r := Ok(Viewed(cfg, c, sandbox));
    }

    /** Makes the claim and, when asked for, provisions the connector; a failure after the claim
        is rolled back. */
    method Create(req: CreateRequest, k: CreateCalls) returns (r: Result<SessionView, Error>, ghost outcome: Outcome)
      requires Valid()
      modifies this, cluster, hub
      ensures Valid()
      ensures (Snapshot(), outcome)
           == CreateSpec(defaults, cfg.connectorEnabled, cluster.bindAtOnce, old(Snapshot()), req, k)
      ensures r == CreateAnswer(cfg, Snapshot(), IdFor(req, k), outcome, k)
      ensures !outcome.Made? ==> cached == old(cached) && log == old(log)
      ensures outcome.Made? ==>
        var looks := Consults(cfg, Snapshot(), IdFor(req, k), k.get);
        var dropped := if UsesConnector(req) then None else old(cached);
        && cached == (if looks then CachedAfter(cfg.connectorEnabled, dropped, k.get.consult) else dropped)
        && log == old(log) + (if UsesConnector(req) then [CacheCleared] else [])
                  + if looks then ConsultObs(cfg.connectorEnabled, dropped, k.get.consult) else []
    {
      var id := if req.id == "" then k.newId else req.id;
      if req.id != "" && !ValidId(req.id) {
        return Err(InvalidId), Rejected(InvalidId);
      }
      var useConnector := req.connector || |req.routes| > 0;
      if useConnector && !cfg.connectorEnabled {
        return Err(Disabled), Rejected(Disabled);
      }
      var err := cluster.CreateClaim(NewClaim(id, req), k.createdAt, k.create);
      if err.Some? {
        return Err(err.value), Rejected(err.value);
      }
      if useConnector {
        var failed := ProvisionOrRollBack(id, req, k);
        if failed {
          return Err(Unreachable), RolledBack;
        }
        Invalidate();
      } else {
        assert log == log + [];
      }
      outcome := Made;
      r := Get(id, k.get);
    }

    /** Provisions the gateway and binds its chats, or undoes both together with the claim. */
    method ProvisionOrRollBack(id: string, req: CreateRequest, k: CreateCalls) returns (failed: bool)
      requires Valid()
      modifies cluster, hub
      ensures Valid()
      ensures (Snapshot(), if failed then RolledBack else Made) == ProvisionSpec(defaults, old(Snapshot()), id, req, k)
    {
      var failure := hub.Provision(id, NewRegistration(defaults, id, req), k.provision);
      if failure.None? {
        failure := BindRoutes(id, req.routes, k.setRoute);
      }
      if failure.Some? {
        var purgeErr := hub.DeleteInstance(id, k.purge);
        var deleteErr := cluster.DeleteClaim(id, k.delete);
      }
      failed := failure.Some?;
    }

    method BindRoutes(id: string, chats: seq<Chat>, nets: nat -> Net) returns (err: Option<Error>)
      modifies hub`routes
      ensures (hub.routes, err.None?) == BindAll(defaults, old(hub.routes), id, chats, nets)
    {
      err := None;
      for i := 0 to |chats|
        invariant err.None? && (hub.routes, true) == BindAll(defaults, old(hub.routes), id, chats[..i], nets)
      {
        assert chats[..i + 1][..i] == chats[..i];
        var platform := if chats[i].platform == "" then defaults.platform else chats[i].platform;
        err := hub.SetRoute(Chat(platform, chats[i].chatId), id, nets(i));
        if err.Some? {
          BindAllStopped(defaults, old(hub.routes), id, chats, nets, i + 1);
          return;
        }
      }
      assert chats[..|chats|] == chats;
    }

    /** Sets the session running and drops the scheduled wake that satisfies. */
    method Wake(id: string, k: WakeCalls) returns (err: Option<Error>)
      requires Valid()
      modifies cluster
      ensures Valid()
      ensures Snapshot() == WakeIn(old(Snapshot()), id, k)
      ensures err == match Reply(k.get, Lookup(old(cluster.claims), id))
        case Some(e) => Some(e)
        case None => Reply(k.patch, Lookup(old(cluster.sandboxes), old(cluster.claims)[id].Resolve()))
    {
      hide WakeIn, Moded, Patched;
      WakeWrites(Snapshot(), id, k);
      var claim, getErr := cluster.GetClaim(id, k.get);
      if getErr.Some? {
        return getErr;
      }
      var c := claim.value;
      var name := if c.sandboxName == "" then c.name else c.sandboxName;
      PatchMakesModed(cluster.sandboxes, name, Running, k.patchAt, k.patch);
      err := cluster.PatchOperatingMode(name, Running, k.patchAt, k.patch);
      if err.Some? {
        return;
      }
      if !c.wakeAt.Absent? {
        var ignored := cluster.PatchWakeAt(c.name, Absent, k.clear);
      }
    }

    /** A suspend followed by a wake; the first half's failure is ignored. */
    method Restart(id: string, k: RestartCalls) returns (err: Option<Error>)
      requires Valid()
      modifies cluster
      ensures Valid()
      ensures Snapshot() == RestartIn(old(Snapshot()), id, k)
      ensures err == match Reply(k.get, Lookup(old(cluster.claims), id))
        case Some(e) => Some(e)
        case None => Reply(k.resume, Lookup(old(cluster.sandboxes), old(cluster.claims)[id].Resolve()))
    {
      hide RestartIn, Moded, Patched;
      RestartWrites(Snapshot(), id, k);
      var claim, getErr := cluster.GetClaim(id, k.get);
      if getErr.Some? {
        return getErr;
      }
      var c := claim.value;
      var name := if c.sandboxName == "" then c.name else c.sandboxName;
      PatchMakesModed(cluster.sandboxes, name, Suspended, k.suspendAt, k.suspend);
      var ignored := cluster.PatchOperatingMode(name, Suspended, k.suspendAt, k.suspend);
      PatchMakesModed(cluster.sandboxes, name, Running, k.resumeAt, k.resume);
      err := cluster.PatchOperatingMode(name, Running, k.resumeAt, k.resume);
    }

    /** The only way a session is destroyed: purge the connector, then delete the claim; a purge
        that is not known done keeps the claim. */
    method Decommission(id: string, k: DecommissionCalls) returns (deprovisioned: bool, err: Option<Error>)
      requires Valid()
      modifies this, cluster, hub
      ensures Valid()
      ensures Snapshot() == DecommissionIn(cfg.connectorEnabled, old(Snapshot()), id, k)
      ensures id in old(cluster.claims) ==>
        var v := PartOf(old(Snapshot()), SlotOf(old(cluster.claims)[id]));
        var d := SessionStep.Decommission(cfg.connectorEnabled, v, k);
        deprovisioned == d.deprovisioned && err == d.err
      ensures id in old(cluster.claims) ==>
        var flagged := old(cluster.claims)[id].connector && cfg.connectorEnabled;
        && (err.None? <==> k.get.Delivered? && (flagged ==> k.purge.Delivered?) && k.delete.Delivered?)
        && (err.None? ==> id !in cluster.claims && (flagged ==> id !in hub.instances))
        && (deprovisioned <==> flagged && k.get.Delivered? && k.purge.Delivered? && id in old(hub.instances))
      ensures id !in old(cluster.claims) ==>
        !deprovisioned && err == Some(if k.get.Delivered? then NotFound else Unreachable)
      ensures cached == (if deprovisioned then None else old(cached))
      ensures log == old(log) + if deprovisioned then [CacheCleared] else []
    {
      hide Put;
      ghost var w := Snapshot();
      deprovisioned := false;
      var claim, getErr := cluster.GetClaim(id, k.get);
      if id in cluster.claims {
        PutGet(w, SlotOf(cluster.claims[id]));
      }
      if getErr.Some? {
        assert log == log + [];
        return false, getErr;
      }
      var c := claim.value;
      DecommissionWrites(w, c, cfg.connectorEnabled, k);
      if c.connector && cfg.connectorEnabled {
        var purgeErr := hub.DeleteInstance(id, k.purge);
        assert Snapshot() == PurgeFrom(w, id, k.purge);
        if purgeErr.None? {
          deprovisioned := true;
          Invalidate();
        } else if purgeErr != Some(NotFound) {
          assert log == log + [];
          return false, Some(Unreachable);
        }
      }
      var deleteErr := cluster.DeleteClaim(id, k.delete);
      assert deprovisioned || log == log + [];
      err := if deleteErr == Some(NotFound) then None else deleteErr;
    }
  }

  /** The writes of a decommission that has read its claim, in the order they are made. */
  lemma DecommissionWrites(w: World, c: Claim, enabled: bool, k: DecommissionCalls)
    requires Lookup(w.claims, c.name) == Some(c) && k.get.Delivered?
    ensures DecommissionIn(enabled, w, c.name, k)
         == if c.connector && enabled then
              (if k.purge.Delivered? then DeleteClaimFrom(PurgeFrom(w, c.name, k.purge), c.name, k.delete)
               else PurgeFrom(w, c.name, k.purge))
            else DeleteClaimFrom(w, c.name, k.delete)
  {
    var s := SlotOf(c);
    var v := PartOf(w, s);
    PurgePut(w, s, k.purge);
    DeletePut(w, s, c, k.delete);
    var v1 := PurgeCall(v, k.purge);
    var w1 := Put(w, s, v1);
    GetPut(w, s, v1);
    DeletePut(w1, s, c, k.delete);
    PutPut(w, s, v1, DeleteCall(v1, k.delete));
  }

  /** Once a route call has failed, the rest of the list is not tried. */
  lemma {:induction false} BindAllStopped(d: Defaults, routes: map<Chat, string>, id: string, chats: seq<Chat>,
                                          nets: nat -> Net, i: nat)
    requires i <= |chats| && !BindAll(d, routes, id, chats[..i], nets).1
    ensures BindAll(d, routes, id, chats, nets) == BindAll(d, routes, id, chats[..i], nets)
    decreases |chats|
  {
    if i < |chats| {
      var n := |chats| - 1;
      assert chats[..n][..i] == chats[..i];
      BindAllStopped(d, routes, id, chats[..n], nets, i);
    } else {
      assert chats[..i] == chats;
    }
  }

  lemma PurgePut(w: World, s: Slot, net: Net)
    ensures Put(w, s, PurgeCall(PartOf(w, s), net)) == PurgeFrom(w, s.name, net)
  {
    PutGet(w, s);
    PutPurged(w, s);
    assert s.name !in w.registered ==> w.registered - {s.name} == w.registered;
  }

  lemma DeletePut(w: World, s: Slot, c: Claim, net: Net)
    requires Lookup(w.claims, s.name) == Some(c) && s == SlotOf(c)
    ensures Put(w, s, DeleteCall(PartOf(w, s), net)) == DeleteClaimFrom(w, s.name, net)
  {
    PutGet(w, s);
    PutClaim(w, s, None);
    PutClaimAndSandbox(w, s, None, None);
  }
}
