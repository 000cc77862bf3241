/** The configuration checks that the sweeper's arithmetic relies on, and what they let through. */
module Config {
  import opened Wrappers
  import opened GoTime
  import opened Decimal
  import opened Knobs
  import opened Idle
  import Lateness

  datatype Config = Config(
    warmPool: string,
    sweepInterval: Duration,
    orphanPolicy: string,
    connectorEnabled: bool,
    connectorUrl: string,
    adminToken: string,
    provisionToken: string,
    botId: string,
    wakeBaseUrl: string,
    statusEnabled: bool,
    statusPort: int,
    statusTimeout: Duration,
    statusUsername: string,
    statusPassword: string,
    idleHorizon: Duration,
    wakeBootMargin: Duration,
    exposureEnabled: bool,
    dashboardDomain: string,
    dashboardTlsSecret: string,
    dashboardDenyService: string)

  datatype Fault =
    | WarmPoolMissing | SweepTooOften | OrphanPolicyUnknown
    | ConnectorUrlMissing | AdminTokenMissing | WakeBaseMissing | BotIdMissing
    | PortInvalid | StatusTimeoutTooShort | CredentialHalfSet | HorizonBelowMargin
    | DomainWithoutExposure | TlsSecretMissing | DenyServiceMissing

  /** Load's checks in their order: the first one that fails is the one reported. */
  function Check(c: Config): Option<Fault> {
    if c.warmPool == "" then Some(WarmPoolMissing)
    else if c.sweepInterval < SECOND then Some(SweepTooOften)
    else if c.orphanPolicy != "report" then Some(OrphanPolicyUnknown)
    else if c.connectorEnabled && c.connectorUrl == "" then Some(ConnectorUrlMissing)
    else if c.connectorEnabled && c.adminToken == "" then Some(AdminTokenMissing)
    else if c.connectorEnabled && c.wakeBaseUrl == "" then Some(WakeBaseMissing)
    else if c.connectorEnabled && c.provisionToken != "" && c.botId == "" then Some(BotIdMissing)
    else if c.statusEnabled && (c.statusPort < 1 || c.statusPort > 65535) then Some(PortInvalid)
    else if c.statusEnabled && c.statusTimeout < SECOND then Some(StatusTimeoutTooShort)
    else if c.statusEnabled && (c.statusUsername == "") != (c.statusPassword == "") then Some(CredentialHalfSet)
    else if c.statusEnabled && c.idleHorizon < c.wakeBootMargin then Some(HorizonBelowMargin)
    else if c.dashboardDomain != "" && !c.exposureEnabled then Some(DomainWithoutExposure)
    else if c.dashboardDomain != "" && c.dashboardTlsSecret == "" then Some(TlsSecretMissing)
    else if c.dashboardDomain != "" && c.dashboardDenyService == "" then Some(DenyServiceMissing)
    else None
  }

  /** A configuration is accepted exactly when every setting that is in use is usable. */
  lemma AcceptedIff(c: Config)
    ensures Check(c).None? <==>
      && c.warmPool != "" && c.sweepInterval >= 1_000_000_000 && c.orphanPolicy == "report"
      && (c.connectorEnabled ==>
            && c.connectorUrl != "" && c.adminToken != "" && c.wakeBaseUrl != ""
            && (c.botId != "" || c.provisionToken == ""))
      && (c.statusEnabled ==>
            && 0 < c.statusPort < 0x1_0000 && c.statusTimeout >= 1_000_000_000 && c.idleHorizon >= c.wakeBootMargin
            && (c.statusUsername != "" <==> c.statusPassword != ""))
      && (c.dashboardDomain == "" || (c.exposureEnabled && c.dashboardTlsSecret != "" && c.dashboardDenyService != ""))
  {
  }

  /** getDuration: bare seconds, multiplied in 64 bits, or a duration string that the standard
      library reads. */
  function GetDuration(text: string, default: Duration, parsed: Option<Duration>): Option<Duration> {
    if text == "" then Some(default)
    else
      match ParseInt(text)
      case Some(seconds) => Some(Wrap(seconds * SECOND))
      case None => parsed
  }

  /** Whatever the text: the default if there is none, the seconds it spells in 64 bits, and
      otherwise what the standard library makes of it. */
  lemma DurationReads(text: string, default: Duration, parsed: Option<Duration>)
    ensures GetDuration("", default, parsed) == Some(default)
    ensures forall n: Int64 :: Spells(text, n) ==> GetDuration(text, default, parsed) == Some(Wrap(n * SECOND))
    ensures text != "" && (forall n: Int64 :: !Spells(text, n)) ==> GetDuration(text, default, parsed) == parsed
  {
    hide ParseInt, Spells;
    KnobReads("", 0);
    forall n: Int64
      ensures ParseInt(text) == Some(n) <==> Spells(text, n)
    {
      ParseIntIff(text, n);
    }
  }

  /** Bare seconds mean what they say exactly while their nanoseconds fit 64 bits. */
  lemma BareSecondsIff(seconds: Int64, default: Duration, parsed: Option<Duration>)
    ensures FormatInt(seconds) != ""
    ensures GetDuration(FormatInt(seconds), default, parsed) == Some(seconds * SECOND as int)
      <==> -9_223_372_036 <= seconds <= 9_223_372_036
  {
    ParseUndoesFormat(seconds);
    KnobRoundTrip(seconds, 0);
    assert Wrap(seconds * SECOND) == seconds * SECOND <==> MIN_INT64 <= seconds * SECOND <= MAX_INT64;
  }

  /** Where polling is on, no wake the sweeper stamps has been due for a second or more. */
  lemma AcceptedWakesAreFresh(c: Config, fire: Time, now: Time)
    requires Check(c).None? && c.statusEnabled
    requires DecideCron(Some(fire), now, c.idleHorizon, c.wakeBootMargin).Go?
    requires FormatWakeAt(fire - c.wakeBootMargin).At?
    ensures FormatWakeAt(fire - c.wakeBootMargin).seconds * SECOND > now - SECOND
  {
  }

  /** A wake scheduled inside the margin is what the check is there to exclude; it does so
      for exactly the settings it accepts with a second to spare. */
  lemma AcceptedWakesLieAheadIff(c: Config)
    requires Check(c).None? && c.statusEnabled
    ensures WakesLieAhead(c.idleHorizon, c.wakeBootMargin) <==>
      c.idleHorizon == MAX_INT64 || c.idleHorizon - c.wakeBootMargin >= SECOND - 1
  {
    WakesLieAheadIff(c.idleHorizon, c.wakeBootMargin);
  }

  /** No stamped wake comes after its cron fire. */
  ghost predicate WakesPrecedeFires(horizon: Duration, margin: Duration) {
    forall now: Time, fire: Time ::
      DecideCron(Some(fire), now, horizon, margin).Go? && FormatWakeAt(fire - margin).At? ==>
        FormatWakeAt(fire - margin).seconds * SECOND <= fire
  }

  /** Nothing checks the sign of the boot margin, and the wake precedes the fire exactly when
      it is not negative. */
  lemma WakesPrecedeFiresIff(horizon: Duration, margin: Duration)
    requires horizon < MAX_INT64
    ensures WakesPrecedeFires(horizon, margin) <==> margin >= 0
  {
    if margin >= 0 {
      forall now: Time, fire: Time |
        DecideCron(Some(fire), now, horizon, margin).Go? && FormatWakeAt(fire - margin).At?
        ensures FormatWakeAt(fire - margin).seconds * SECOND <= fire
      {
        StoredWakeIsInTime(fire, now, horizon, margin);
      }
    } else {
      var fire, now := margin, margin - horizon - 1;
      assert FormatWakeAt(fire - margin).At? && FormatWakeAt(fire - margin).seconds == 0;
      assert DecideCron(Some(fire), now, horizon, margin).Go?;
    }
  }

  /** Such a configuration is accepted: crons fire ten minutes before their session wakes. */
  lemma NegativeMarginIsAccepted(c: Config)
    requires Check(c).None? && c.statusEnabled && c.idleHorizon < MAX_INT64
    ensures var late := c.(wakeBootMargin := -600 * SECOND, idleHorizon := 0);
      Check(late).None? && !WakesPrecedeFires(late.idleHorizon, late.wakeBootMargin)
  {
    WakesPrecedeFiresIff(0, -600 * SECOND);
  }

  /** The sweep loop's pause, computed in 64 bits, stays within five percent of the interval
      whatever the random number is. */
  ghost predicate KeepsPace(interval: Duration) {
    forall r :: 0 <= r < interval / 10 ==>
      19 * interval <= 20 * Wrap(Lateness.Pause(interval, r)) < 21 * interval
  }

  /** The one-second minimum makes the random number's range non-empty. Nothing bounds the
      interval above: it keeps the pace exactly until the longest pause overflows. */
  lemma AcceptedIntervalKeepsPaceIff(c: Config)
    requires Check(c).None?
    ensures c.sweepInterval / 10 > 0
    ensures KeepsPace(c.sweepInterval) <==>
      c.sweepInterval - c.sweepInterval / 20 + c.sweepInterval / 10 - 1 <= MAX_INT64
  {
    var interval := c.sweepInterval;
    var longest := interval / 10 - 1;
    if interval - interval / 20 + longest <= MAX_INT64 {
      forall r | 0 <= r < interval / 10
        ensures 19 * interval <= 20 * Wrap(Lateness.Pause(interval, r)) < 21 * interval
      {
        Lateness.PauseWithinFivePercent(interval, r);
      }
    } else {
      Lateness.PauseWithinFivePercent(interval, longest);
      assert Wrap(Lateness.Pause(interval, longest)) == Lateness.Pause(interval, longest) - TWO_TO_64;
    }
  }
}
