/** What becomes of a requested knob: from the create request through the claim's annotations to
    the sweep that destroys or suspends the session, and to the view its caller is shown. */
module KnobLaws {
  import opened Wrappers
  import opened GoTime
  import opened Network
  import opened Decimal
  import opened Knobs
  import opened Kube
  import opened Relay
  import opened SessionStep
  import opened Fleet
  import opened SweepLaws
  import opened NormalForm
  import opened Manager
  import opened CreateLaws
  import opened DecommissionLaws
  import History

  /** The duration a request stands for: the default if it names none or a negative one, and what 64
      bits leave of its nanoseconds beyond 9223372036 seconds. */
  function Requested(seconds: Option<Int64>, default: Duration): Duration {
    match seconds
    case None => default
    case Some(n) => if n < 0 then default else if n <= 9_223_372_036 then n * SECOND else Wrap(n * SECOND)
  }

  /** Each of a claim's two knobs is read from its own annotation, whatever the other says. */
  lemma KnobsAreTheirOwn(cfg: Settings, c: Claim)
    ensures c.ttlSeconds == "" ==> EffectiveTtl(cfg, c) == cfg.ttl
    ensures forall n: Int64 :: c.ttlSeconds == FormatInt(n) ==> EffectiveTtl(cfg, c) == Requested(Some(n), cfg.ttl)
    ensures (forall n: Int64 :: !Spells(c.ttlSeconds, n)) ==> EffectiveTtl(cfg, c) == cfg.ttl
    ensures c.idleTimeoutSeconds == "" ==> EffectiveIdleTimeout(cfg, c) == cfg.idleTimeout
    ensures forall n: Int64 :: c.idleTimeoutSeconds == FormatInt(n) ==>
      EffectiveIdleTimeout(cfg, c) == Requested(Some(n), cfg.idleTimeout)
    ensures (forall n: Int64 :: !Spells(c.idleTimeoutSeconds, n)) ==> EffectiveIdleTimeout(cfg, c) == cfg.idleTimeout
  {
    hide FormatInt, Spells, EffectiveDuration;
    KnobReads(c.ttlSeconds, cfg.ttl);
    KnobReads(c.idleTimeoutSeconds, cfg.idleTimeout);
    forall n: Int64
      ensures EffectiveDuration(FormatInt(n), cfg.ttl) == Requested(Some(n), cfg.ttl)
      ensures EffectiveDuration(FormatInt(n), cfg.idleTimeout) == Requested(Some(n), cfg.idleTimeout)
    {
      KnobRoundTrip(n, cfg.ttl);
      KnobRoundTrip(n, cfg.idleTimeout);
    }
  }

  /** The claim still stands as the create made it, but for what a sweep or the controller changes. */
  predicate StillThere(c: Claim, created: Claim) {
    && c.name == created.name && c.createdAt == created.createdAt && !c.terminating
    && c.ttlSeconds == created.ttlSeconds && c.idleTimeoutSeconds == created.idleTimeoutSeconds
  }

  /** The claim that a create has left. */
  function Created(d: Defaults, enabled: bool, bind: bool, w: World, req: CreateRequest, k: CreateCalls): Claim
    requires CreateSpec(d, enabled, bind, w, req, k).1.Made?
  {
    MadeMakesTheClaim(d, enabled, bind, w, req, k);
    CreateSpec(d, enabled, bind, w, req, k).0.claims[IdFor(req, k)]
  }

  lemma RequestedKnobs(cfg: Settings, d: Defaults, bind: bool, w: World, req: CreateRequest, k: CreateCalls, c: Claim)
    requires CreateSpec(d, cfg.connectorEnabled, bind, w, req, k).1.Made?
    requires StillThere(c, Created(d, cfg.connectorEnabled, bind, w, req, k))
    ensures c.createdAt == Some(k.createdAt) && !c.terminating
    ensures EffectiveTtl(cfg, c) == Requested(req.ttlSeconds, cfg.ttl)
    ensures EffectiveIdleTimeout(cfg, c) == Requested(req.idleTimeoutSeconds, cfg.idleTimeout)
  {
    hide CreateSpec, FormatInt, RowAsRequested, EffectiveTtl, EffectiveIdleTimeout, Spells;
    CreateLeavesTheSession(d, cfg.connectorEnabled, bind, w, req, k);
    KnobsAreTheirOwn(cfg, c);
  }

  /** However long after a create, a fault-free sweep destroys its session if and only if a positive
      TTL was asked for, or is the default where none was, and the session's age has reached it. */
  lemma DestroyedOnTime(cfg: Settings, d: Defaults, bind: bool, w: World, req: CreateRequest, k: CreateCalls,
                        s: System, listed: seq<Claim>, env: SweepEnv, i: nat)
    requires CreateSpec(d, cfg.connectorEnabled, bind, w, req, k).1.Made?
    requires Separate(listed) && i < |listed| && Lookup(s.world.claims, listed[i].name) == Some(listed[i])
    requires StillThere(listed[i], Created(d, cfg.connectorEnabled, bind, w, req, k))
    requires FaultFree(env.calls(listed[i].name), env.now)
    ensures var ttl := Requested(req.ttlSeconds, cfg.ttl);
      listed[i].name !in Sweep(s, cfg, listed, env).world.claims <==> ttl > 0 && env.now - k.createdAt >= ttl
  {
    hide SessionSweep, CreateSpec, StillThere, FaultFree, Sweep, Separate;
    var c := listed[i];
    RequestedKnobs(cfg, d, bind, w, req, k, c);
    var instances := Instances(cfg.connectorEnabled, s.cached, env.consult);
    AfterTheSweep(s, cfg, listed, env, i);
    FaultFreeSweepDestroysIffExpired(cfg, c, PartOf(s.world, SlotOf(c)), instances, env.now, env.calls(c.name));
  }

  /** No turn suspends the session before the idle timeout that was asked for, or the default, has
      run since its last message in either direction and since it became ready. */
  lemma SuspendedNoEarlier(cfg: Settings, d: Defaults, bind: bool, w: World, req: CreateRequest, k: CreateCalls,
                           c: Claim, v: View, instances: Option<map<string, Instance>>, now: Time, calls: Calls,
                           n: nat)
    requires CreateSpec(d, cfg.connectorEnabled, bind, w, req, k).1.Made?
    requires StillThere(c, Created(d, cfg.connectorEnabled, bind, w, req, k))
    requires n < |SessionSweep(cfg, c, v, instances, now, calls).obs|
    requires SessionSweep(cfg, c, v, instances, now, calls).obs[n].SuspendSent?
    ensures instances.Some? && c.name in instances.value
    ensures var idle, row := Requested(req.idleTimeoutSeconds, cfg.idleTimeout), instances.value[c.name];
      && idle > 0 && row.lastInboundAt.Some? && row.lastOutboundAt.Some?
      && now - row.lastInboundAt.value * SECOND >= idle && now - row.lastOutboundAt.value * SECOND >= idle
      && var sandbox := SessionSweep(cfg, c, v, instances, now, calls).obs[n].facts.sandbox;
         sandbox.Some? && sandbox.value.readyChanged.Some? && now - sandbox.value.readyChanged.value >= idle
  {
    hide SessionSweep, CreateSpec, StillThere;
    RequestedKnobs(cfg, d, bind, w, req, k, c);
    History.TurnSends(cfg, c, v, instances, now, calls, n);
  }

  /** What a read shows: each number from its own knob, and the state by the claim, the operating mode
      and the conditions. */
  lemma GetShows(cfg: Settings, w: World, id: string, k: GetCalls)
    ensures var r := GetSpec(cfg, w, id, k);
      if k.get.Delivered? && id in w.claims then
        var c := w.claims[id];
        var name := if c.sandboxName == "" then c.name else c.sandboxName;
        var found := k.sandbox.Delivered? && name in w.sandboxes;
        && r.Ok? && r.value.id == c.name && r.value.createdAt == c.createdAt && r.value.displayName == c.displayName
        && r.value.ttlSeconds == SecondsShown(EffectiveDuration(c.ttlSeconds, cfg.ttl))
        && r.value.idleTimeoutSeconds == SecondsShown(EffectiveDuration(c.idleTimeoutSeconds, cfg.idleTimeout))
        && (r.value.state == Terminating <==> c.terminating)
        && (r.value.state == Pending <==> !c.terminating && !found)
        && (r.value.operatingMode == Unset <==> !found)
        && r.value.state != Unresolved
        && (found ==>
              var sandbox := w.sandboxes[name];
              && (r.value.operatingMode == Suspended <==> sandbox.mode == Suspended)
              && (!c.terminating ==>
                    && (r.value.state == Ready <==> sandbox.mode != Suspended && sandbox.ready)
                    && (r.value.state == Waking <==> sandbox.mode != Suspended && !sandbox.ready)
                    && (r.value.state == Asleep <==> sandbox.mode == Suspended && sandbox.suspended)
                    && (r.value.state == Suspending <==> sandbox.mode == Suspended && !sandbox.suspended)))
      else r == Err(if k.get.Delivered? then NotFound else Unreachable)
  {
    if id in w.claims {
      var c := w.claims[id];
      StateIs(c.terminating, SandboxRead(Lookup(w.sandboxes, c.Resolve()), k.sandbox));
    }
    hide Derive, EffectiveDuration, SecondsShown;
  }

  /** The seconds the caller sees for what was asked: the same number up to 9223372036, the default's
      whole seconds where none was asked for or a negative one. */
  predicate ShowsSeconds(shown: int, seconds: Option<Int64>, default: Duration) {
    && (seconds.Some? && 0 <= seconds.value <= 9_223_372_036 ==> shown == seconds.value)
    && (seconds.None? || seconds.value < 0 ==> shown == SecondsShown(default))
  }

  /** The caller of a create that worked is shown the session that was asked for. */
  lemma CreateShows(cfg: Settings, d: Defaults, bind: bool, w: World, req: CreateRequest, k: CreateCalls)
    requires CreateSpec(d, cfg.connectorEnabled, bind, w, req, k).1.Made?
    requires k.get.get.Delivered? && k.get.sandbox.Delivered?
    ensures var id := if req.id == "" then k.newId else req.id;
      var r := CreateAnswer(cfg, CreateSpec(d, cfg.connectorEnabled, bind, w, req, k).0, id, Made, k);
      && r.Ok? && r.value.id == id && r.value.displayName == req.displayName
      && r.value.createdAt == Some(k.createdAt)
      && ShowsSeconds(r.value.ttlSeconds, req.ttlSeconds, cfg.ttl)
      && ShowsSeconds(r.value.idleTimeoutSeconds, req.idleTimeoutSeconds, cfg.idleTimeout)
      && (bind && id != "" ==> r.value.state == Ready && r.value.operatingMode == Running)
      && (!bind && id !in w.sandboxes ==> r.value.state == Pending)
  {
    hide CreateSpec, RowAsRequested, EffectiveTtl, EffectiveIdleTimeout, FormatInt;
    CreateLeavesTheSession(d, cfg.connectorEnabled, bind, w, req, k);
    var u := CreateSpec(d, cfg.connectorEnabled, bind, w, req, k).0;
    RequestedKnobs(cfg, d, bind, w, req, k, u.claims[IdFor(req, k)]);
    GetShows(cfg, u, IdFor(req, k), k.get);
    hide GetSpec;
  }
}
