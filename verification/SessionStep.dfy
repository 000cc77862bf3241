/** One session's share of a sweep, as a function of everything that session owns.

    A `View` holds the five things the sweeper reads or writes for one session: its claim, the
    sandbox the claim resolves to, its gateway row with the chats bound to it, and its
    quiet-clock entry. The outcome of every call the sweep may make is in `Calls`. */
module SessionStep {
  import opened Wrappers
  import opened GoTime
  import opened Network
  import opened Kube
  import opened Relay
  import opened Knobs
  import opened Idle

  datatype Settings = Settings(
    ttl: Duration,
    idleTimeout: Duration,
    horizon: Duration,
    margin: Duration,
    connectorEnabled: bool,
    agentEnabled: bool,
    cronConfigured: bool,
    exposure: bool)

  datatype WakeCalls = WakeCalls(get: Net, patch: Net, patchAt: Time, clear: Net)

  datatype DecommissionCalls = DecommissionCalls(get: Net, purge: Net, delete: Net)

  /** The cron endpoint's answer: an error of any kind, or the earliest fire. */
  datatype CronReply = Unreadable | Schedule(nextFire: Option<Time>)

  datatype Calls = Calls(
    wakeRead: Net,
    wakeClear: Net,
    wake: WakeCalls,
    ttl: DecommissionCalls,
    idleRead: Net,
    report: Option<Report>,
    cron: CronReply,
    stamp: Net,
    suspend: Net,
    suspendAt: Time)

  datatype View = View(
    claim: Option<Claim>,
    sandbox: Option<Sandbox>,
    registered: Option<Registration>,
    bound: set<Chat>,
    quiet: Option<Time>)

  /** What a sweep leaves in the history: every idle evaluation with polling on, every suspend
      it sends with the facts it sent it on, and every readout it takes or drops. */
  datatype Obs =
    | Polled(name: string, report: Option<Report>, at: Time)
    | SuspendSent(name: string, facts: IdleInput, nextFire: Option<Time>)
    | Pruned(alive: set<string>)
    | Restarted(at: Time)
    | Listed(rows: seq<Instance>, at: Time)
    | CacheCleared
    | SweepBegan(instances: Option<map<string, Instance>>, readAt: Time)

  datatype Stepped = Stepped(view: View, obs: seq<Obs>, purged: bool)

  function EffectiveTtl(cfg: Settings, c: Claim): Duration {
    EffectiveDuration(c.ttlSeconds, cfg.ttl)
  }

  function EffectiveIdleTimeout(cfg: Settings, c: Claim): Duration {
    EffectiveDuration(c.idleTimeoutSeconds, cfg.idleTimeout)
  }

  /** A read that fails for any reason is "no sandbox". */
  function SandboxRead(sandbox: Option<Sandbox>, net: Net): Option<Sandbox> {
    if net.Delivered? then sandbox else None
  }

  /** Manager.Wake on the session: set it Running, then drop the wake-at it satisfies. */
  function WakeCall(v: View, k: WakeCalls): View {
    if !k.get.Delivered? || v.claim.None? then v
    else
      var v1 := v.(sandbox := Patched(v.sandbox, Running, k.patchAt, k.patch));
      if Reply(k.patch, v.sandbox).Some? || v.claim.value.wakeAt.Absent? then v1
      else v1.(claim := Stamped(v.claim, Absent, k.clear))
  }

  /** Whether a sandbox reading shows the session running, whatever its readiness. */
  predicate ShowsRunning(sandbox: Sandbox) {
    !sandbox.suspended && !sandbox.mode.Suspended?
  }

  /** sweepWake, deciding on the listed claim `c`. */
  function WakeStep(c: Claim, v: View, now: Time, k: Calls): View {
    match c.wakeAt
    case Absent => v
    case Malformed => v.(claim := Stamped(v.claim, Absent, k.wakeClear))
    case At(seconds) =>
      var sandbox := SandboxRead(v.sandbox, k.wakeRead);
      if sandbox.None? then v
      else if ShowsRunning(sandbox.value) then v.(claim := Stamped(v.claim, Absent, k.wakeClear))
      else if now < seconds * SECOND then v
      else WakeCall(v, k.wake)
  }

  /** Manager.Decommission: purge first, and keep the claim unless the purge is known done. */
  datatype Decommissioned = Decommissioned(view: View, deprovisioned: bool, err: Option<Error>)

  function PurgeCall(v: View, net: Net): View {
    if net.Applied() && v.registered.Some? then v.(registered := None, bound := {}) else v
  }

  function DeleteCall(v: View, net: Net): View {
    if net.Applied() && v.claim.Some? then
      v.(claim := None, sandbox := if v.claim.value.sandboxName != "" then None else v.sandbox)
    else v
  }

  function DeleteError(net: Net): Option<Error> {
    if net.Delivered? then None else Some(Unreachable)
  }

  function Decommission(connectorEnabled: bool, v: View, k: DecommissionCalls): Decommissioned {
    if Reply(k.get, v.claim).Some? then Decommissioned(v, false, Reply(k.get, v.claim))
    else if v.claim.value.connector && connectorEnabled then
      var v1 := PurgeCall(v, k.purge);
      if !k.purge.Delivered? then Decommissioned(v1, false, Some(Unreachable))
      else Decommissioned(DeleteCall(v1, k.delete), v.registered.Some?, DeleteError(k.delete))
    else Decommissioned(DeleteCall(v, k.delete), false, DeleteError(k.delete))
  }

  predicate Expired(cfg: Settings, c: Claim, now: Time) {
    var ttl := EffectiveTtl(cfg, c);
    ttl > 0 && c.createdAt.Some? && Sub(now, c.createdAt.value) >= ttl
  }

  /** sweepTTL. */
  function TtlStep(cfg: Settings, c: Claim, v: View, now: Time, k: Calls): Stepped {
    if !Expired(cfg, c, now) then Stepped(v, [], false)
    else
      var d := Decommission(cfg.connectorEnabled, v, k.ttl);
      Stepped(d.view, if d.deprovisioned then [CacheCleared] else [], d.deprovisioned)
  }

  /** statusTarget: the published address, else the exposure Service, else nothing to dial. */
  function StatusTarget(cfg: Settings, c: Claim, sandbox: Option<Sandbox>): string {
    if sandbox.Some? && sandbox.value.serviceFQDN != "" then sandbox.value.serviceFQDN
    else if cfg.exposure then c.name
    else ""
  }

  /** The poll of a running session; None when it is not polled or does not answer. */
  function Poll(cfg: Settings, c: Claim, sandbox: Option<Sandbox>, k: Calls): Option<Report> {
    if sandbox.Some? && !sandbox.value.suspended && Derive(false, sandbox) == Ready
       && StatusTarget(cfg, c, sandbox) != ""
    then k.report
    else None
  }

  /** trackQuiet: a quiet poll starts or keeps the clock, anything else resets it. */
  function TrackQuiet(quiet: Option<Time>, report: Option<Report>, now: Time): Option<Time> {
    if !IsQuiet(report) then None else if quiet.Some? then quiet else Some(now)
  }

  /** The cron half of the gate: without credentials it is skipped, unreadable blocks. */
  function CronGate(cfg: Settings, c: Claim, sandbox: Option<Sandbox>, now: Time, k: Calls): Gate {
    if !(cfg.agentEnabled && cfg.cronConfigured) then Go(None)
    else if StatusTarget(cfg, c, sandbox) == "" || k.cron.Unreadable? then Blocked
    else DecideCron(k.cron.nextFire, now, cfg.horizon, cfg.margin)
  }

  /** The fire the gate decided on, when there is a gate. */
  function KnownFire(cfg: Settings, k: Calls): Option<Time> {
    if cfg.agentEnabled && cfg.cronConfigured && k.cron.Schedule? then k.cron.nextFire else None
  }

  function IdleFacts(cfg: Settings, c: Claim, v: View, instances: map<string, Instance>, now: Time, k: Calls): IdleInput
  {
    var sandbox := SandboxRead(v.sandbox, k.idleRead);
    var report := if cfg.agentEnabled then Poll(cfg, c, sandbox, k) else None;
    IdleInput(sandbox, Lookup(instances, c.name), EffectiveIdleTimeout(cfg, c), now, cfg.agentEnabled, report,
              if cfg.agentEnabled then TrackQuiet(v.quiet, report, now) else None)
  }

  /** The tail of sweepIdle: stamp the wake first, and suspend only once it is stored. */
  function SuspendStep(c: Claim, v: View, facts: IdleInput, gate: Gate, fire: Option<Time>, k: Calls): (View, seq<Obs>)
    requires gate.Go?
  {
    var v1 := if gate.wakeAt.Some? then v.(claim := Stamped(v.claim, FormatWakeAt(gate.wakeAt.value), k.stamp)) else v;
    if gate.wakeAt.Some? && Reply(k.stamp, v.claim).Some? then (v1, [])
    else (v1.(sandbox := Patched(v1.sandbox, Suspended, k.suspendAt, k.suspend)), [SuspendSent(c.name, facts, fire)])
  }

  /** sweepIdle. */
  function IdleStep(cfg: Settings, c: Claim, v: View, instances: Option<map<string, Instance>>, now: Time, k: Calls):
    (View, seq<Obs>)
  {
    if !c.connector || instances.None? then (v, [])
    else
      var facts := IdleFacts(cfg, c, v, instances.value, now, k);
      var v1 := if cfg.agentEnabled then v.(quiet := facts.quietSince) else v;
      var polled := if cfg.agentEnabled then [Polled(c.name, facts.report, now)] else [];
      var gate := CronGate(cfg, c, facts.sandbox, now, k);
      if !DecideIdle(facts) || gate.Blocked? then (v1, polled)
      else
        var (v2, sent) := SuspendStep(c, v1, facts, gate, KnownFire(cfg, k), k);
        (v2, polled + sent)
  }

  /** One claim's turn in a sweep. */
  function SessionSweep(cfg: Settings, c: Claim, v: View, instances: Option<map<string, Instance>>, now: Time,
                        k: Calls):
    Stepped
  {
    if c.terminating then Stepped(v, [], false)
    else
      var v1 := WakeStep(c, v, now, k);
      var t := TtlStep(cfg, c, v1, now, k);
      var (v2, obs) := IdleStep(cfg, c, t.view, instances, now, k);
      Stepped(v2, t.obs + obs, t.purged)
  }
}
