/** The suspend decision: the idle guards, and the cron half that may schedule a wake. */
module Idle {
  import opened Wrappers
  import opened GoTime
  import opened Kube
  import opened Relay

  /** One /api/status observation. */
  datatype Report = Report(activeAgents: int, activeSessions: int)
  {
    predicate Busy() {
      activeAgents > 0 || activeSessions > 0
    }
  }

  /** A poll counts as quiet when it was answered and showed no work. */
  predicate IsQuiet(report: Option<Report>): (quiet: bool)
    ensures quiet <==> report.Some? && report.value.activeAgents <= 0 && report.value.activeSessions <= 0
  {
    report.Some? && !report.value.Busy()
  }

  datatype IdleInput = IdleInput(
    sandbox: Option<Sandbox>,
    instance: Option<Instance>,
    idleTimeout: Duration,
    now: Time,
    agentEnabled: bool,
    report: Option<Report>,
    quietSince: Option<Time>)

  function LastActivity(inbound: Int64, outbound: Int64): Int64 {
    if outbound > inbound then outbound else inbound
  }

  /** The newer of the two timestamps. */
  function Active(row: Instance): Int64
    requires row.lastInboundAt.Some? && row.lastOutboundAt.Some?
  {
    LastActivity(row.lastInboundAt.value, row.lastOutboundAt.value)
  }

  /** The suspend gate, guard by guard. */
  predicate DecideIdle(facts: IdleInput) {
    if facts.idleTimeout <= 0 then false
    else if facts.sandbox.None? || facts.sandbox.value.suspended then false
    else if Derive(false, facts.sandbox) != Ready then false
    else if facts.sandbox.value.readyChanged.None?
         || Sub(facts.now, facts.sandbox.value.readyChanged.value) < facts.idleTimeout then false
    else if facts.instance.None? || facts.instance.value.revoked then false
    else if facts.instance.value.turnInFlight then false
    else if facts.instance.value.lastInboundAt.None? || facts.instance.value.lastOutboundAt.None? then false
    else if Sub(facts.now, Active(facts.instance.value) * SECOND) < facts.idleTimeout then false
    else if facts.instance.value.bufferedCount != 0 then false
    else if facts.agentEnabled then
      if facts.report.None? || facts.report.value.Busy() then false
      else if facts.quietSince.None? || Sub(facts.now, facts.quietSince.value) < facts.idleTimeout then false
      else true
    else true
  }

  /** A time known to lie at least `timeout` in the past. */
  predicate Older(t: Option<Time>, now: Time, timeout: int) {
    t.Some? && now - t.value >= timeout
  }

  /** What a suspend must be able to show, in exact arithmetic and without any order of guards. */
  predicate Justified(facts: IdleInput) {
    && facts.idleTimeout > 0
    && facts.sandbox.Some?
    && !facts.sandbox.value.mode.Suspended? && !facts.sandbox.value.suspended && facts.sandbox.value.ready
    && Older(facts.sandbox.value.readyChanged, facts.now, facts.idleTimeout)
    && facts.instance.Some?
    && !facts.instance.value.revoked && !facts.instance.value.turnInFlight && facts.instance.value.bufferedCount == 0
    && facts.instance.value.lastInboundAt.Some? && facts.instance.value.lastOutboundAt.Some?
    && facts.now - facts.instance.value.lastInboundAt.value * SECOND >= facts.idleTimeout
    && facts.now - facts.instance.value.lastOutboundAt.value * SECOND >= facts.idleTimeout
    && (facts.agentEnabled ==>
          && facts.report.Some? && facts.report.value.activeAgents <= 0 && facts.report.value.activeSessions <= 0
          && Older(facts.quietSince, facts.now, facts.idleTimeout))
  }

  /** The guards let a session through exactly when all of it is there, although they compare
      clamped durations and look at the newer timestamp only. */
  lemma DecideIdleIffJustified(facts: IdleInput)
    ensures DecideIdle(facts) <==> Justified(facts)
  {
  }

  /** `Go` carries the wake to schedule, if any. */
  datatype Gate = Blocked | Go(wakeAt: Option<Time>)

  function DecideCron(nextFire: Option<Time>, now: Time, horizon: Duration, margin: Duration): Gate {
    match nextFire
    case None => Go(None)
    case Some(fire) => if Sub(fire, now) <= horizon then Blocked else Go(Some(fire - margin))
  }

  /** The instants RFC 3339 section 5.6 can spell: years 0000 to 9999, in unix seconds. */
  const FIRST_SECOND: int := -62_167_219_200
  const LAST_SECOND: int := 253_402_300_799

  /** An instant formatted to whole seconds, as the next sweep will read it back. */
  function FormatWakeAt(t: Time): WakeAt {
    var seconds := t / SECOND;
    if FIRST_SECOND <= seconds <= LAST_SECOND then At(seconds) else Malformed
  }

  /** Exactly the instants of the 3,652,425 days of those years can be stored, which begin 719,528
      days before 1970, each truncated to its second. */
  lemma SpelledIff(t: Time)
    ensures FormatWakeAt(t).At? <==> -719_528 * 86_400 * SECOND <= t < (3_652_425 - 719_528) * 86_400 * SECOND
    ensures FormatWakeAt(t).At? ==> FormatWakeAt(t).seconds * SECOND <= t < (FormatWakeAt(t).seconds + 1) * SECOND
    ensures FormatWakeAt(t) != Absent
  {
  }

  /** The wake is scheduled in the second before the boot margin starts, never later. */
  lemma StoredWakeIsInTime(fire: Time, now: Time, horizon: Duration, margin: Duration)
    requires DecideCron(Some(fire), now, horizon, margin).Go?
    ensures fire - now > horizon
    ensures FormatWakeAt(fire - margin).At? ==>
      fire - margin - SECOND < FormatWakeAt(fire - margin).seconds * SECOND <= fire - margin
    ensures horizon >= margin && FormatWakeAt(fire - margin).At? ==>
      FormatWakeAt(fire - margin).seconds * SECOND > now - SECOND
  {
  }

  /** No scheduled wake is already due when it is stamped. */
  ghost predicate WakesLieAhead(horizon: Duration, margin: Duration) {
    forall now: Time, fire: Time ::
      DecideCron(Some(fire), now, horizon, margin).Go? && FormatWakeAt(fire - margin).At? ==>
        FormatWakeAt(fire - margin).seconds * SECOND > now
  }

  /** Truncating to seconds costs up to a second: a horizon equal to the margin, which the
      configuration accepts, still stamps wakes that are due at once. */
  lemma WakesLieAheadIff(horizon: Duration, margin: Duration)
    ensures WakesLieAhead(horizon, margin) <==> horizon == MAX_INT64 || horizon - margin >= SECOND - 1
  {
    if horizon == MAX_INT64 || horizon - margin >= SECOND - 1 {
      forall now: Time, fire: Time |
        DecideCron(Some(fire), now, horizon, margin).Go? && FormatWakeAt(fire - margin).At?
        ensures FormatWakeAt(fire - margin).seconds * SECOND > now
      {
        StoredWakeIsInTime(fire, now, horizon, margin);
      }
    } else {
      var now, fire := 0, horizon + 1;
      assert DecideCron(Some(fire), now, horizon, margin).Go?;
      var t := fire - margin;
      assert t < SECOND;
      assert t >= -2 * TWO_TO_64;
      assert t / SECOND <= 0;
      assert FormatWakeAt(t).At? && FormatWakeAt(t).seconds * SECOND <= now;
    }
  }
}
