/** The sweeper: one loop over the claim list, with the quiet clocks as its only memory. */
module Sweeper {
  import opened Wrappers
  import opened GoTime
  import opened Network
  import opened Kube
  import opened Relay
  import opened Idle
  import opened SessionStep
  import opened Fleet
  import opened Manager
  import opened History

  class Runner {
    const manager: SessionManager

    /** When the agent of a session was first seen quiet, with no other observation since. */
    var quietSince: map<string, Time>

    constructor (manager: SessionManager)
      ensures this.manager == manager && quietSince == map[]
    {
      this.manager := manager;
      quietSince := map[];
    }

    ghost predicate Valid()
      reads manager, manager.cluster
    {
      manager.Valid()
    }

    ghost function Here(): World
      reads this, manager, manager.cluster, manager.hub
    {
      manager.Snapshot().(quiet := quietSince)
    }

    ghost function State(): System
      reads this, manager, manager.cluster, manager.hub
    {
      System(Here(), manager.cached, manager.log)
    }

    /** A listed claim that still exists is still bound to the sandbox it was listed with. */
    ghost predicate Coherent(c: Claim)
      reads manager, manager.cluster
    {
      c.name in manager.cluster.claims ==> manager.cluster.claims[c.name].sandboxName == c.sandboxName
    }

    method ClearWakeAt(name: string, net: Net)
      requires Valid()
      modifies manager.cluster`claims
      ensures Valid()
      ensures manager.cluster.claims
           == Store(old(manager.cluster.claims), name, Stamped(Lookup(old(manager.cluster.claims), name), Absent, net))
    {
      var ignored := manager.cluster.PatchWakeAt(name, Absent, net);
    }

    method SweepWake(c: Claim, now: Time, k: Calls)
      requires Valid() && Coherent(c)
      modifies manager.cluster
      ensures Valid()
      ensures Here() == Put(old(Here()), SlotOf(c), WakeStep(c, PartOf(old(Here()), SlotOf(c)), now, k))
    {
      hide Put, WakeIn, WakeCall, Patched, Stamped, Bound;
      WakeStepWrites(Here(), c, now, k);
      if c.wakeAt.Absent? {
        return;
      }
      if c.wakeAt.Malformed? {
        ClearWakeAt(c.name, k.wakeClear);
        return;
      }
      var sandbox := manager.SandboxOf(c, k.wakeRead);
      if sandbox.None? {
        return;
      }
      if !sandbox.value.suspended && !sandbox.value.mode.Suspended? {
        ClearWakeAt(c.name, k.wakeClear);
        return;
      }
      if now < c.wakeAt.seconds * SECOND {
        return;
      }
      WakeAside(manager.Snapshot(), quietSince, c, k.wake);
      var ignored := manager.Wake(c.name, k.wake);
    }

    method SweepTtl(c: Claim, now: Time, k: Calls)
      requires Valid() && Coherent(c)
      modifies manager, manager.cluster, manager.hub
      ensures Valid()
      ensures var t := TtlStep(manager.cfg, c, PartOf(old(Here()), SlotOf(c)), now, k);
        && Here() == Put(old(Here()), SlotOf(c), t.view)
        && manager.cached == (if t.purged then None else old(manager.cached))
        && manager.log == old(manager.log) + t.obs
    {
      var ttl := EffectiveTtl(manager.cfg, c);
      if ttl <= 0 || c.createdAt.None? || Sub(now, c.createdAt.value) < ttl {
        PutGet(Here(), SlotOf(c));
        assert manager.log == manager.log + [];
        return;
      }
      DecommissionAside(manager.cfg.connectorEnabled, manager.Snapshot(), quietSince, c, k.ttl);
      var deprovisioned, err := manager.Decommission(c.name, k.ttl);
    }

    /** A quiet poll starts or keeps the clock, anything else resets it. */
    method TrackQuietClock(name: string, report: Option<Report>, now: Time) returns (since: Option<Time>)
      modifies this
      ensures since == TrackQuiet(Lookup(old(quietSince), name), report, now)
      ensures quietSince == Store(old(quietSince), name, since)
    {
      if report.None? || report.value.Busy() {
        quietSince := quietSince - {name};
        return None;
      }
      if name in quietSince {
        assert quietSince == quietSince[name := quietSince[name]];
        return Some(quietSince[name]);
      }
      quietSince := quietSince[name := now];
      return Some(now);
    }

    /** Gathers the facts of one idle evaluation, polling the agent when that is configured. */
    method Observe(c: Claim, instances: map<string, Instance>, now: Time, k: Calls) returns (facts: IdleInput)
      requires Valid()
      modifies this, manager`log
      ensures Valid()
      ensures facts == IdleFacts(manager.cfg, c, PartOf(old(Here()), SlotOf(c)), instances, now, k)
      ensures quietSince == if manager.cfg.agentEnabled then Store(old(quietSince), c.name, facts.quietSince)
                            else old(quietSince)
      ensures manager.log == old(manager.log)
        + if manager.cfg.agentEnabled then [Polled(c.name, facts.report, now)] else []
    {
      var instance := if c.name in instances then Some(instances[c.name]) else None;
      var sandbox := manager.SandboxOf(c, k.idleRead);
      facts := IdleInput(sandbox, instance, EffectiveIdleTimeout(manager.cfg, c), now, false, None, None);
      if !manager.cfg.agentEnabled {
        assert manager.log == manager.log + [];
        return;
      }
      var report := None;
      if sandbox.Some? && !sandbox.value.suspended && Derive(false, sandbox) == Ready
         && StatusTarget(manager.cfg, c, sandbox) != "" {
        report := k.report;
      }
      var since := TrackQuietClock(c.name, report, now);
      facts := facts.(agentEnabled := true, report := report, quietSince := since);
      manager.log := manager.log + [Polled(c.name, report, now)];
    }

    method SweepIdle(c: Claim, instances: Option<map<string, Instance>>, now: Time, k: Calls)
      requires Valid()
      modifies this, manager`log, manager.cluster
      ensures Valid()
      ensures var (v, obs) := IdleStep(manager.cfg, c, PartOf(old(Here()), SlotOf(c)), instances, now, k);
        Here() == Put(old(Here()), SlotOf(c), v) && manager.log == old(manager.log) + obs
    {
      ghost var w, log := Here(), manager.log;
      PutGet(w, SlotOf(c));
      if !c.connector || instances.None? {
        assert manager.log == manager.log + [];
        return;
      }
      var facts := Observe(c, instances.value, now, k);
      ghost var w1 := Here();
      PutQuiet(w, SlotOf(c), facts.quietSince);
      var gate := CronGate(manager.cfg, c, facts.sandbox, now, k);
      if DecideIdle(facts) && gate.Go? {
        Suspend(c, facts, gate, KnownFire(manager.cfg, k), k);
      }
      IdleStepWrites(manager.cfg, w, w1, log, c, instances.value, now, k);
    }

    /** Stamps the scheduled wake, if any, and suspends once it is stored. */
    method Suspend(c: Claim, facts: IdleInput, gate: Gate, fire: Option<Time>, k: Calls)
      requires Valid() && gate.Go?
      modifies manager`log, manager.cluster
      ensures Valid()
      ensures var (v, obs) := SuspendStep(c, PartOf(old(Here()), SlotOf(c)), facts, gate, fire, k);
        Here() == Put(old(Here()), SlotOf(c), v) && manager.log == old(manager.log) + obs
    {
      hide Put, SuspendStep, PartOf, FormatWakeAt;
      SuspendStepWrites(Here(), c, facts, gate, fire, k);
      if gate.wakeAt.Some? {
        var err := manager.cluster.PatchWakeAt(c.name, FormatWakeAt(gate.wakeAt.value), k.stamp);
        if err.Some? {
          assert manager.log == manager.log + [];
          return;
        }
      }
      manager.log := manager.log + [SuspendSent(c.name, facts, fire)];
      var ignored := manager.cluster.PatchOperatingMode(c.Resolve(), Suspended, k.suspendAt, k.suspend);
    }

    /** One claim's turn. */
    method SweepOne(c: Claim, instances: Option<map<string, Instance>>, now: Time, k: Calls)
      requires Valid() && Coherent(c)
      modifies this, manager, manager.cluster, manager.hub
      ensures Valid()
      ensures State() == SweepSession(old(State()), manager.cfg, c, instances, now, k)
    {
      ghost var w, log := Here(), manager.log;
      if c.terminating {
        PutGet(w, SlotOf(c));
        assert manager.log == manager.log + [];
        return;
      }
      TurnWrites(manager.cfg, w, log, c, instances, now, k);
      SweepWake(c, now, k);
      assert Coherent(c);
      SweepTtl(c, now, k);
      SweepIdle(c, instances, now, k);
    }

    method PruneQuietClocks(listed: seq<Claim>)
      modifies this
      ensures quietSince == PruneQuiet(old(quietSince), Names(listed))
    {
      var alive: set<string> := {};
      for i := 0 to |listed|
        invariant alive == Names(listed[..i])
        invariant quietSince == old(quietSince)
      {
        alive := alive + {listed[i].name};
        assert listed[..i + 1] == listed[..i] + [listed[i]];
        assert Names(listed[..i + 1]) == Names(listed[..i]) + {listed[i].name} by {
          assert forall j :: 0 <= j < i ==> listed[..i + 1][j] == listed[..i][j];
          assert listed[..i + 1][i] == listed[i];
        }
      }
      assert listed[..|listed|] == listed;
      quietSince := map n | n in quietSince && n in alive :: quietSince[n];
    }

    /** One sweep. `listing` is the outcome of the claim list; a sweep without it does nothing. */
    method Sweep(listing: Net, env: SweepEnv) returns (ghost listed: seq<Claim>)
      requires Valid()
      modifies this, manager, manager.cluster, manager.hub
      ensures Valid()
      ensures !listing.Delivered? ==> State() == old(State())
      ensures listing.Delivered? ==>
        Lists(old(manager.cluster.claims), listed) && State() == Fleet.Sweep(old(State()), manager.cfg, listed, env)
    {
      hide SessionSweep, Put, Instances, ConsultObs, CachedAfter;
      var claims, err := manager.cluster.ListClaims(listing);
      listed := claims;
      if err.Some? {
        return;
      }
      ghost var s0 := State();
      var instances := manager.InstancesNow(env.consult);
      manager.log := manager.log + [SweepBegan(instances, ReadAt(s0.cached, env.consult))];
      ghost var s1 := Consulted(s0, manager.cfg, env);
      assert State() == s1;
      for i := 0 to |claims|
        invariant Valid()
        invariant forall j :: i <= j < |claims| ==> Coherent(claims[j])
        invariant State() == SweepClaims(s1, manager.cfg, claims[..i], instances, env)
      {
        ghost var before := manager.cluster.claims;
        ghost var s := State();
        SweepOne(claims[i], instances, env.now, env.calls(claims[i].name));
        assert claims[..i + 1][..i] == claims[..i];
        forall j | i + 1 <= j < |claims| ensures Coherent(claims[j]) {
          OthersKeepTheirClaims(s, manager.cfg, claims[i], instances, env.now, env.calls(claims[i].name),
                                claims[j].name);
          assert Lookup(manager.cluster.claims, claims[j].name) == Lookup(before, claims[j].name);
        }
      }
      assert claims[..|claims|] == claims;
      PruneQuietClocks(claims);
      manager.log := manager.log + [Pruned(Names(claims))];
    }

    /** What makes the whole-run theorems statements about this object: a sweep keeps the
        memory in step with the history. */
    method SweepKeepingHistory(listing: Net, env: SweepEnv) returns (ghost listed: seq<Claim>)
      requires Valid() && Remembers(State(), manager.cfg)
      modifies this, manager, manager.cluster, manager.hub
      ensures Valid() && Remembers(State(), manager.cfg)
      ensures listing.Delivered? ==> quietSince.Keys <= Names(listed)
    {
      ghost var s := State();
      listed := Sweep(listing, env);
      if listing.Delivered? {
        SweepRemembers(s, manager.cfg, listed, env);
        SweepPrunes(s, manager.cfg, listed, env);
        assert quietSince == State().world.quiet;
      }
    }

    /** The operations keep them in step too, whoever calls them between the sweeps. */
    method CreateKeepingHistory(req: CreateRequest, k: CreateCalls) returns (r: Result<SessionView, Error>)
      requires Valid() && Remembers(State(), manager.cfg)
      modifies manager, manager.cluster, manager.hub
      ensures Valid() && Remembers(State(), manager.cfg) && quietSince == old(quietSince)
    {
      ghost var s := State();
      ghost var outcome;
      r, outcome := manager.Create(req, k);
      ghost var id := IdFor(req, k);
      ghost var looks := outcome.Made? && Manager.Consults(manager.cfg, manager.Snapshot(), id, k.get);
      ghost var drops := outcome.Made? && UsesConnector(req);
      OperationRemembers(s, manager.cfg, Here(), drops, looks, k.get.consult);
      assert State().log == AfterOperation(s, manager.cfg, Here(), drops, looks, k.get.consult).log;
    }

    method GetKeepingHistory(id: string, k: GetCalls) returns (r: Result<SessionView, Error>)
      requires Valid() && Remembers(State(), manager.cfg)
      modifies manager
      ensures Valid() && Remembers(State(), manager.cfg) && quietSince == old(quietSince)
    {
      ghost var s := State();
      r := manager.Get(id, k);
      ghost var looks := Manager.Consults(manager.cfg, manager.Snapshot(), id, k);
      OperationRemembers(s, manager.cfg, Here(), false, looks, k.consult);
      assert State().log == AfterOperation(s, manager.cfg, Here(), false, looks, k.consult).log;
    }

    method WakeKeepingHistory(id: string, k: WakeCalls) returns (err: Option<Error>)
      requires Valid() && Remembers(State(), manager.cfg)
      modifies manager.cluster
      ensures Valid() && Remembers(State(), manager.cfg) && quietSince == old(quietSince)
    {
      err := manager.Wake(id, k);
    }

    method DecommissionKeepingHistory(id: string, k: DecommissionCalls)
      returns (deprovisioned: bool, err: Option<Error>)
      requires Valid() && Remembers(State(), manager.cfg)
      modifies manager, manager.cluster, manager.hub
      ensures Valid() && Remembers(State(), manager.cfg) && quietSince == old(quietSince)
    {
      ghost var s := State();
      deprovisioned, err := manager.Decommission(id, k);
      ghost var q := Consult(0, None, 0);
      OperationRemembers(s, manager.cfg, Here(), deprovisioned, false, q);
      assert State().log == AfterOperation(s, manager.cfg, Here(), deprovisioned, false, q).log;
    }
  }

  /** An operation seen from the history: it changes cluster and connector, may drop the cache, and
      may then consult it. */
  ghost function AfterOperation(s: System, cfg: Settings, w: World, drops: bool, looks: bool, q: Consult): System {
    var s1 := s.(world := w.(quiet := s.world.quiet));
    var s2 := if drops then s1.(cached := None, log := s1.log + [CacheCleared]) else s1;
    if looks then s2.(cached := CachedAfter(cfg.connectorEnabled, s2.cached, q),
                      log := s2.log + ConsultObs(cfg.connectorEnabled, s2.cached, q))
    else s2
  }

  lemma OperationRemembers(s: System, cfg: Settings, w: World, drops: bool, looks: bool, q: Consult)
    requires Remembers(s, cfg)
    ensures Remembers(AfterOperation(s, cfg, w, drops, looks, q), cfg)
  {
    hide QuietClock, CacheOf, AllSound, LastRead;
    var p := Process(s, None);
    NextTells(p, cfg, Elsewhere(w));
    var p1 := Next(p, cfg, Elsewhere(w));
    NextTells(p1, cfg, Invalidates);
    var p2 := if drops then Next(p1, cfg, Invalidates) else p1;
    NextTells(p2, cfg, Event.Consults(q));
  }

  /** Putting the quiet clocks aside, changing the rest, and putting them back. */
  lemma QuietAside(w: World, quiet: map<string, Time>, s: Slot, u: View)
    requires w.quiet == map[] && u.quiet.None?
    ensures Put(w.(quiet := quiet), s, u.(quiet := Lookup(quiet, s.name))) == Put(w, s, u).(quiet := quiet)
  {
  }

  lemma WakeAside(w: World, quiet: map<string, Time>, c: Claim, k: WakeCalls)
    requires w.quiet == map[] && (c.name in w.claims ==> SlotOf(w.claims[c.name]) == SlotOf(c))
    ensures var w' := w.(quiet := quiet);
      WakeIn(w, c.name, k).(quiet := quiet) == Put(w', SlotOf(c), WakeCall(PartOf(w', SlotOf(c)), k))
  {
    var w', s := w.(quiet := quiet), SlotOf(c);
    var v := PartOf(w, s);
    assert PartOf(w', s) == v.(quiet := Lookup(quiet, s.name));
    assert WakeCall(PartOf(w', s), k) == WakeCall(v, k).(quiet := Lookup(quiet, s.name));
    QuietAside(w, quiet, s, WakeCall(v, k));
    PutGet(w, s);
  }

  lemma DecommissionAside(enabled: bool, w: World, quiet: map<string, Time>, c: Claim, k: DecommissionCalls)
    requires w.quiet == map[] && (c.name in w.claims ==> SlotOf(w.claims[c.name]) == SlotOf(c))
    ensures var w' := w.(quiet := quiet);
      DecommissionIn(enabled, w, c.name, k).(quiet := quiet)
        == Put(w', SlotOf(c), Decommission(enabled, PartOf(w', SlotOf(c)), k).view)
    ensures Decommission(enabled, PartOf(w.(quiet := quiet), SlotOf(c)), k).deprovisioned
         == (c.name in w.claims && Decommission(enabled, PartOf(w, SlotOf(c)), k).deprovisioned)
  {
    var w', s := w.(quiet := quiet), SlotOf(c);
    var v := PartOf(w, s);
    assert PartOf(w', s) == v.(quiet := Lookup(quiet, s.name));
    DecommissionIgnoresTheClock(enabled, PartOf(w', s), k);
    assert v == PartOf(w', s).(quiet := None);
    QuietAside(w, quiet, s, Decommission(enabled, v, k).view);
    PutGet(w, s);
  }

  lemma DecommissionIgnoresTheClock(enabled: bool, v: View, k: DecommissionCalls)
    ensures var d, e := Decommission(enabled, v, k), Decommission(enabled, v.(quiet := None), k);
      && d.view == e.view.(quiet := v.quiet) && e.view.quiet.None?
      && d.deprovisioned == e.deprovisioned && d.err == e.err
  {
  }

  /** A turn is its three steps, each on what the one before left. */
  lemma TurnWrites(cfg: Settings, w: World, log: seq<Obs>, c: Claim, instances: Option<map<string, Instance>>,
                   now: Time, k: Calls)
    requires !c.terminating
    ensures var s := SlotOf(c);
      var w1 := Put(w, s, WakeStep(c, PartOf(w, s), now, k));
      var t := TtlStep(cfg, c, PartOf(w1, s), now, k);
      var w2 := Put(w1, s, t.view);
      var (v, obs) := IdleStep(cfg, c, PartOf(w2, s), instances, now, k);
      var r := SessionSweep(cfg, c, PartOf(w, s), instances, now, k);
      && Put(w2, s, v) == Put(w, s, r.view) && log + r.obs == log + t.obs + obs && r.purged == t.purged
      && (c.name in w1.claims ==> c.name in w.claims && w1.claims[c.name].sandboxName == w.claims[c.name].sandboxName)
  {
    hide WakeStep, TtlStep, IdleStep;
    var s := SlotOf(c);
    var v1 := WakeStep(c, PartOf(w, s), now, k);
    KeepsBoundAndBinding(cfg, c, PartOf(w, s), now, k);
    GetPut(w, s, v1);
    var w1 := Put(w, s, v1);
    var t := TtlStep(cfg, c, v1, now, k);
    GetPut(w1, s, t.view);
    PutPut(w, s, v1, t.view);
    var v := IdleStep(cfg, c, t.view, instances, now, k).0;
    IdleKeepsBound(cfg, c, t.view, instances, now, k);
    PutPut(w, s, t.view, v);
  }

  lemma KeepsBoundAndBinding(cfg: Settings, c: Claim, v: View, now: Time, k: Calls)
    ensures var v1 := WakeStep(c, v, now, k);
      && v1.bound == v.bound && TtlStep(cfg, c, v1, now, k).view.bound <= v.bound
      && (v1.claim.Some? ==> v.claim.Some? && v1.claim.value.sandboxName == v.claim.value.sandboxName)
  {
  }

  lemma IdleKeepsBound(cfg: Settings, c: Claim, v: View, instances: Option<map<string, Instance>>, now: Time, k: Calls)
    ensures IdleStep(cfg, c, v, instances, now, k).0.bound == v.bound
  {
  }

  /** sweepWake's writes, but for the wake itself. */
  lemma WakeStepWrites(w: World, c: Claim, now: Time, k: Calls)
    ensures var u := Put(w, SlotOf(c), WakeStep(c, PartOf(w, SlotOf(c)), now, k));
      var sandbox := SandboxRead(Lookup(w.sandboxes, c.Resolve()), k.wakeRead);
      var running := sandbox.Some? && ShowsRunning(sandbox.value);
      && (c.wakeAt.Malformed? || (c.wakeAt.At? && running) ==>
            u == w.(claims := Store(w.claims, c.name, Stamped(Lookup(w.claims, c.name), Absent, k.wakeClear))))
      && (c.wakeAt.Absent? || (c.wakeAt.At? && (sandbox.None? || (!running && now < c.wakeAt.seconds * SECOND))) ==>
            u == w)
  {
    PutGet(w, SlotOf(c));
    PutClaim(w, SlotOf(c), Stamped(Lookup(w.claims, c.name), Absent, k.wakeClear));
  }

  /** The two writes of a suspend. */
  lemma SuspendStepWrites(w: World, c: Claim, facts: IdleInput, gate: Gate, fire: Option<Time>, k: Calls)
    requires gate.Go?
    ensures var (v, obs) := SuspendStep(c, PartOf(w, SlotOf(c)), facts, gate, fire, k);
      var u := Put(w, SlotOf(c), v);
      var claim := Lookup(w.claims, c.name);
      var claims := if gate.wakeAt.None? then w.claims
                    else Store(w.claims, c.name, Stamped(claim, FormatWakeAt(gate.wakeAt.value), k.stamp));
      var sandbox := Patched(Lookup(w.sandboxes, c.Resolve()), Suspended, k.suspendAt, k.suspend);
      if gate.wakeAt.Some? && Reply(k.stamp, claim).Some? then u == w.(claims := claims) && obs == []
      else u == w.(claims := claims, sandboxes := Store(w.sandboxes, c.Resolve(), sandbox))
           && obs == [SuspendSent(c.name, facts, fire)]
  {
    var s := SlotOf(c);
    var sandbox := Patched(Lookup(w.sandboxes, s.sandbox), Suspended, k.suspendAt, k.suspend);
    PutSandbox(w, s, sandbox);
    if gate.wakeAt.Some? {
      var claim := Stamped(Lookup(w.claims, c.name), FormatWakeAt(gate.wakeAt.value), k.stamp);
      PutClaim(w, s, claim);
      PutClaimAndSandbox(w, s, claim, sandbox);
    }
  }

  /** An idle step is its observation followed, if everything agrees, by its suspend. */
  lemma IdleStepWrites(cfg: Settings, w: World, w1: World, log: seq<Obs>, c: Claim, instances: map<string, Instance>,
                       now: Time, k: Calls)
    requires c.connector
    requires var facts := IdleFacts(cfg, c, PartOf(w, SlotOf(c)), instances, now, k);
      w1 == w.(quiet := if cfg.agentEnabled then Store(w.quiet, c.name, facts.quietSince) else w.quiet)
    ensures var s := SlotOf(c);
      var facts := IdleFacts(cfg, c, PartOf(w, s), instances, now, k);
      var gate := CronGate(cfg, c, facts.sandbox, now, k);
      var polled := if cfg.agentEnabled then [Polled(c.name, facts.report, now)] else [];
      var (v, obs) := IdleStep(cfg, c, PartOf(w, s), Some(instances), now, k);
      if DecideIdle(facts) && gate.Go? then
        var (v2, sent) := SuspendStep(c, PartOf(w1, s), facts, gate, KnownFire(cfg, k), k);
        Put(w, s, v) == Put(w1, s, v2) && log + obs == log + polled + sent
      else Put(w, s, v) == w1 && obs == polled
  {
    var s := SlotOf(c);
    var v := PartOf(w, s);
    var facts := IdleFacts(cfg, c, v, instances, now, k);
    var v1 := if cfg.agentEnabled then v.(quiet := facts.quietSince) else v;
    PutGet(w, s);
    PutQuiet(w, s, facts.quietSince);
    assert Put(w, s, v1) == w1;
    GetPut(w, s, v1);
    var gate := CronGate(cfg, c, facts.sandbox, now, k);
    if gate.Go? {
      PutPut(w, s, v1, SuspendStep(c, v1, facts, gate, KnownFire(cfg, k), k).0);
    }
  }

  /** A turn touches no other session's claim. */
  lemma OthersKeepTheirClaims(s: System, cfg: Settings, c: Claim, instances: Option<map<string, Instance>>, now: Time,
                              k: Calls, name: string)
    requires name != c.name
    ensures Lookup(SweepSession(s, cfg, c, instances, now, k).world.claims, name) == Lookup(s.world.claims, name)
  {
  }
}
