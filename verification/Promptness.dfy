/** A session that stays quiet does get suspended, and in time. */
module Promptness {
  import opened Wrappers
  import opened GoTime
  import opened Kube
  import opened Relay
  import opened Knobs
  import opened Idle
  import opened SessionStep
  import opened NormalForm
  import opened Lateness
  import M = MemoryLoss

  /** A connector session with an idle timeout and no wake, whose sandbox has been ready since
      `since` and can be polled if that is on. */
  predicate Running(cfg: Settings, v: View, since: Time) {
    && v.claim.Some? && v.claim.value.connector && !v.claim.value.terminating && v.claim.value.wakeAt.Absent?
    && EffectiveIdleTimeout(cfg, v.claim.value) > 0
    && v.sandbox.Some? && v.sandbox.value.mode.Running? && v.sandbox.value.ready && !v.sandbox.value.suspended
    && v.sandbox.value.readyChanged == Some(since)
    && (cfg.agentEnabled ==> v.sandbox.value.serviceFQDN != "" || (cfg.exposure && v.claim.value.name != ""))
  }

  /** The gateway's row shows no work, and none since `active`. */
  predicate Silent(row: Instance, active: Time) {
    && !row.revoked && !row.turnInFlight && row.bufferedCount == 0
    && row.lastInboundAt.Some? && row.lastInboundAt.value * SECOND <= active
    && row.lastOutboundAt.Some? && row.lastOutboundAt.value * SECOND <= active
  }

  /** The session's age has not reached its TTL, or it has none. */
  predicate NotExpired(cfg: Settings, c: Claim, now: Time) {
    var ttl := EffectiveDuration(c.ttlSeconds, cfg.ttl);
    ttl <= 0 || c.createdAt.None? || now - c.createdAt.value < ttl
  }

  /** No cron in the way: none read where that is off, or a schedule with nothing inside the horizon. */
  predicate NoCronSoon(cfg: Settings, now: Time, cron: CronReply) {
    cfg.agentEnabled && cfg.cronConfigured ==>
      cron.Schedule? && (cron.nextFire.Some? ==> cfg.horizon < cron.nextFire.value - now && cfg.horizon < MAX_INT64)
  }

  /** A sweep without failures that finds the session idle. */
  predicate FindsIdle(cfg: Settings, v: View, r: Round, active: Time)
    requires v.claim.Some?
  {
    var c := v.claim.value;
    && FaultFree(r.calls, r.now) && NotExpired(cfg, c, r.now)
    && r.instances.Some? && c.name in r.instances.value && Silent(r.instances.value[c.name], active)
    && (cfg.agentEnabled ==>
          r.calls.report.Some? && r.calls.report.value.activeAgents <= 0 && r.calls.report.value.activeSessions <= 0)
    && NoCronSoon(cfg, r.now, r.calls.cron)
  }

  function Swept(cfg: Settings, v: View, r: Round): Stepped
    requires v.claim.Some?
  {
    SessionSweep(cfg, v.claim.value, v, r.instances, r.now, r.calls)
  }

  /** One such sweep suspends the session, or only starts or keeps its clock; and it suspends it if
      readiness, activity and clock are all old enough. */
  lemma SweptIdle(cfg: Settings, v: View, r: Round, since: Time, active: Time)
    requires Running(cfg, v, since) && FindsIdle(cfg, v, r, active)
    ensures var s := Swept(cfg, v, r);
      var timeout := EffectiveIdleTimeout(cfg, v.claim.value);
      var quiet := if v.quiet.Some? then v.quiet else Some(r.now);
      && (M.SendsSuspend(s.obs) || s.view == v.(quiet := if cfg.agentEnabled then quiet else v.quiet))
      && (since + timeout <= r.now && active + timeout <= r.now
          && (cfg.agentEnabled ==> quiet.value + timeout <= r.now) ==>
            M.SendsSuspend(s.obs))
  {
    var c, k := v.claim.value, r.calls;
    assert WakeStep(c, v, r.now, k) == v;
    assert TtlStep(cfg, c, v, r.now, k) == Stepped(v, [], false);
    hide WakeStep, TtlStep, CronGate;
    var facts := IdleFacts(cfg, c, v, r.instances.value, r.now, k);
    DecideIdleIffJustified(facts);
    M.IdleStepSendsIff(cfg, c, v, r.instances.value, r.now, k);
    M.IdleStepKeepsTheRest(cfg, c, v, r.instances, r.now, k);
    var obs := IdleStep(cfg, c, v, r.instances, r.now, k).1;
    assert [] + obs == obs;
    assert facts.sandbox == v.sandbox;
    hide IdleStep, DecideIdle;
  }

  /** Until some round suspends it, the session is as it was, its clock started by the first. */
  lemma {:induction false} StaysQuiet(cfg: Settings, v: View, rounds: seq<Round>, since: Time, active: Time)
    requires Running(cfg, v, since) && v.quiet.None?
    requires forall i :: 0 <= i < |rounds| ==> FindsIdle(cfg, v, rounds[i], active)
    ensures (exists i :: SuspendedBy(cfg, v, rounds, i))
         || After(cfg, v, rounds) == v.(quiet := if cfg.agentEnabled && rounds != [] then Some(rounds[0].now) else None)
  {
    hide SessionSweep, CronGate;
    if rounds == [] {
    } else {
      var n := |rounds| - 1;
      StaysQuiet(cfg, v, rounds[..n], since, active);
      if i :| SuspendedBy(cfg, v, rounds[..n], i) {
        assert rounds[..n][..i] == rounds[..i];
        assert SuspendedBy(cfg, v, rounds, i);
      } else {
        var u := After(cfg, v, rounds[..n]);
        SweptIdle(cfg, u, rounds[n], since, active);
        if M.SendsSuspend(Swept(cfg, u, rounds[n]).obs) {
          assert SuspendedBy(cfg, v, rounds, n);
        }
      }
    }
  }

  /** Round `i` sends the session a suspend. */
  ghost predicate SuspendedBy(cfg: Settings, v: View, rounds: seq<Round>, i: int) {
    && 0 <= i < |rounds| && After(cfg, v, rounds[..i]).claim.Some?
    && M.SendsSuspend(Swept(cfg, After(cfg, v, rounds[..i]), rounds[i]).obs)
  }

  /** The last of: ready, active, first found quiet. */
  function QuietFrom(rounds: seq<Round>, since: Time, active: Time): Time
    requires rounds != []
  {
    var t := if since > active then since else active;
    if rounds[0].now > t then rounds[0].now else t
  }

  /** A session that paced, fault-free sweeps keep finding idle is sent a suspend less than 1.05
      intervals and two cycle timeouts after its idle timeout has run from the last of: its becoming
      ready, its last activity, the first sweep to find it quiet. */
  lemma SuspendedInTime(cfg: Settings, interval: int, v: View, rounds: seq<Round>, since: Time, active: Time)
    requires Running(cfg, v, since) && v.quiet.None? && interval >= 10 && rounds != [] && Paced(cfg, interval, rounds)
    requires forall i :: 0 <= i < |rounds| ==> FindsIdle(cfg, v, rounds[i], active)
    requires rounds[|rounds| - 1].now >= QuietFrom(rounds, since, active) + EffectiveIdleTimeout(cfg, v.claim.value)
    ensures var due := QuietFrom(rounds, since, active) + EffectiveIdleTimeout(cfg, v.claim.value);
      exists i :: SuspendedBy(cfg, v, rounds, i) && 20 * (rounds[i].now - due) < 21 * interval + 1200 * SECOND
  {
    var due := QuietFrom(rounds, since, active) + EffectiveIdleTimeout(cfg, v.claim.value);
    hide SessionSweep, CronGate;
    var j := FirstDue(rounds, due);
    assert j > 0;
    RoundIsSoon(cfg, interval, rounds, due, j);
    StaysQuiet(cfg, v, rounds[..j], since, active);
    if i :| SuspendedBy(cfg, v, rounds[..j], i) {
      assert rounds[..j][..i] == rounds[..i];
      assert SuspendedBy(cfg, v, rounds, i);
      assert rounds[i].now < due;
    } else {
      assert rounds[..j][0] == rounds[0];
      SweptIdle(cfg, After(cfg, v, rounds[..j]), rounds[j], since, active);
      assert SuspendedBy(cfg, v, rounds, j);
    }
  }

  lemma RoundIsSoon(cfg: Settings, interval: int, rounds: seq<Round>, due: Time, j: nat)
    requires interval >= 10 && Paced(cfg, interval, rounds)
    requires 0 < j < |rounds| && rounds[j - 1].now < due
    ensures 20 * (rounds[j].now - due) < 21 * interval + 1200 * SECOND
  {
    PauseWithinFivePercent(interval, rounds[j - 1].jitter);
    assert rounds[j].start == rounds[j - 1].end + Pause(interval, rounds[j - 1].jitter);
  }
}
