/** How late a scheduled wake can be.

    `Runner.Run` sweeps, sleeps a jittered interval, and sweeps again. A session suspended ahead
    of a cron fire is resumed by the first sweep that finds its wake due. */
module Lateness {
  import opened Wrappers
  import opened GoTime
  import opened Kube
  import opened Relay
  import opened Idle
  import opened SessionStep
  import opened NormalForm

  /** The pause after a sweep, for a random number `r` below a tenth of the interval. */
  function Pause(interval: int, r: int): int {
    interval - interval / 20 + r
  }

  /** In integer arithmetic the pause stays within five percent of the interval, the upper end excluded. */
  lemma PauseWithinFivePercent(interval: int, r: int)
    requires interval >= 10 && 0 <= r < interval / 10
    ensures 19 * interval <= 20 * Pause(interval, r) < 21 * interval
  {
  }

  /** And it can be any whole number of nanoseconds in a band a tenth of the interval wide. */
  lemma PausesFillTheBand(interval: int, p: int)
    ensures (exists r :: 0 <= r < interval / 10 && Pause(interval, r) == p)
       <==> interval - interval / 20 <= p < interval - interval / 20 + interval / 10
  {
    var r := p - (interval - interval / 20);
    assert Pause(interval, r) == p;
  }

  /** One sweep: when it starts, the instant it works on, when it ends, and what it meets. */
  datatype Round = Round(
    start: Time,
    now: Time,
    end: Time,
    instances: Option<map<string, Instance>>,
    calls: Calls,
    jitter: int)

  /** Sweeps without failures, each within the cycle timeout of 30 seconds, one jittered pause apart. */
  ghost predicate Paced(cfg: Settings, interval: int, rounds: seq<Round>) {
    && (forall i :: 0 <= i < |rounds| ==>
          && rounds[i].start <= rounds[i].now <= rounds[i].end <= rounds[i].start + 30 * SECOND
          && FaultFree(rounds[i].calls, rounds[i].now) && Spellable(cfg, rounds[i].calls)
          && rounds[i].calls.wake.patchAt <= rounds[i].end
          && 0 <= rounds[i].jitter < interval / 10)
    && forall i :: 0 < i < |rounds| ==> rounds[i].start == rounds[i - 1].end + Pause(interval, rounds[i - 1].jitter)
  }

  /** The session after the sweeps, each listing it as it then is. */
  function After(cfg: Settings, v: View, rounds: seq<Round>): View {
    if rounds == [] then v
    else
      var u := After(cfg, v, rounds[..|rounds| - 1]);
      var last := rounds[|rounds| - 1];
      if u.claim.None? then u
      else SessionSweep(cfg, u.claim.value, u, last.instances, last.now, last.calls).view
  }

  predicate Waiting(v: View, seconds: int) {
    && v.claim.Some? && !v.claim.value.terminating && v.claim.value.wakeAt == At(seconds)
    && v.sandbox.Some? && v.sandbox.value.mode.Suspended? && v.sandbox.value.suspended
  }

  /** A sweep that sends a suspend ahead of a fire leaves the session waiting for it. */
  lemma SuspendLeavesItWaiting(cfg: Settings, c: Claim, v: View, instances: Option<map<string, Instance>>, now: Time,
                               k: Calls,
                               fire: Time)
    requires v.claim == Some(c) && FaultFree(k, now) && Spellable(cfg, k) && RoomForTruncation(cfg)
    requires Suspends(SessionSweep(cfg, c, v, instances, now, k), fire)
    ensures var u := SessionSweep(cfg, c, v, instances, now, k).view;
      exists seconds :: Waiting(u, seconds) && now < seconds * SECOND <= fire - cfg.margin
  {
    hide IdleStep, EffectiveTtl, FormatWakeAt;
    var w := WakeStep(c, v, now, k);
    assert w.claim.Some? && w.claim.value == c.(wakeAt := w.claim.value.wakeAt);
    var t := TtlStep(cfg, c, w, now, k);
    assert t.obs == [] || t.obs == [CacheCleared];
    assert t.view.claim.Some? ==> !t.view.claim.value.terminating;
    hide WakeStep, TtlStep;
    assert IdleStep(cfg, c, t.view, instances, now, k).1 == [] ==> t.obs + [] == t.obs;
    IdleSuspendLeavesItWaiting(cfg, c, t.view, instances, now, k, fire);
  }

  predicate Suspends(r: Stepped, fire: Time) {
    r.obs != [] && r.obs[|r.obs| - 1].SuspendSent? && r.obs[|r.obs| - 1].nextFire == Some(fire)
  }

  lemma IdleSuspendLeavesItWaiting(cfg: Settings, c: Claim, v: View, instances: Option<map<string, Instance>>,
                                   now: Time,
                                   k: Calls, fire: Time)
    requires FaultFree(k, now) && Spellable(cfg, k) && RoomForTruncation(cfg)
    requires var obs := IdleStep(cfg, c, v, instances, now, k).1;
      obs != [] && obs[|obs| - 1].SuspendSent? && obs[|obs| - 1].nextFire == Some(fire)
    requires v.claim.Some? ==> !v.claim.value.terminating
    ensures v.claim.Some?
    ensures var u := IdleStep(cfg, c, v, instances, now, k).0;
      exists seconds :: Waiting(u, seconds) && now < seconds * SECOND <= fire - cfg.margin
  {
    var facts := IdleFacts(cfg, c, v, instances.value, now, k);
    DecideIdleIffJustified(facts);
    assert KnownFire(cfg, k) == Some(fire);
    StoredWakeIsInTime(fire, now, cfg.horizon, cfg.margin);
    var stored := FormatWakeAt(fire - cfg.margin);
    assert Waiting(IdleStep(cfg, c, v, instances, now, k).0, stored.seconds);
  }

  /** Before the wake is due a sweep leaves a waiting session waiting, or its TTL ends it. */
  lemma WaitsUntilDue(cfg: Settings, v: View, instances: Option<map<string, Instance>>, now: Time, k: Calls,
                      seconds: int)
    requires Waiting(v, seconds) && FaultFree(k, now) && now < seconds * SECOND
    ensures var u := SessionSweep(cfg, v.claim.value, v, instances, now, k).view;
      u.claim.None? || Waiting(u, seconds)
  {
    var c := v.claim.value;
    assert WakeStep(c, v, now, k) == v;
    if !Expired(cfg, c, now) {
      SuspendedStays(cfg, c, v, instances, now, k);
    } else {
      NoClaimNoMore(cfg, c, TtlStep(cfg, c, v, now, k).view, instances, now, k);
    }
  }

  lemma NoClaimNoMore(cfg: Settings, c: Claim, v: View, instances: Option<map<string, Instance>>, now: Time, k: Calls)
    requires v.claim.None?
    ensures IdleStep(cfg, c, v, instances, now, k).0.claim.None?
  {
  }

  /** Once it is due, the sweep resumes the session, or its TTL ends it. */
  lemma ResumesWhenDue(cfg: Settings, v: View, instances: Option<map<string, Instance>>, now: Time, k: Calls,
                       seconds: int)
    requires Waiting(v, seconds) && FaultFree(k, now) && seconds * SECOND <= now
    ensures var u := SessionSweep(cfg, v.claim.value, v, instances, now, k).view;
      u.claim.None? || Resumed(u, k.wake.patchAt)
  {
    var c := v.claim.value;
    var w := WakeStep(c, v, now, k);
    assert Resumed(w, k.wake.patchAt);
    if Expired(cfg, c, now) {
      NoClaimNoMore(cfg, c, TtlStep(cfg, c, w, now, k).view, instances, now, k);
    } else {
      FreshlyResumedStaysUp(cfg, c, w, instances, now, k);
    }
  }

  predicate Resumed(v: View, at: Time) {
    v.sandbox.Some? && v.sandbox.value.mode.Running? && v.sandbox.value.readyChanged == Some(at)
  }

  lemma FreshlyResumedStaysUp(cfg: Settings, c: Claim, w: View, instances: Option<map<string, Instance>>, now: Time,
                              k: Calls)
    requires Resumed(w, k.wake.patchAt) && FaultFree(k, now)
    ensures IdleStep(cfg, c, w, instances, now, k).0.sandbox == w.sandbox
  {
  }

  /** The session just before round `j`, while no sweep has found the wake due. */
  lemma {:induction false} WaitsThroughRounds(cfg: Settings, v: View, rounds: seq<Round>, seconds: int)
    requires Waiting(v, seconds)
    requires forall i :: 0 <= i < |rounds| ==>
      FaultFree(rounds[i].calls, rounds[i].now) && rounds[i].now < seconds * SECOND
    ensures After(cfg, v, rounds).claim.None? || Waiting(After(cfg, v, rounds), seconds)
  {
    if rounds == [] {
    } else {
      var n := |rounds| - 1;
      WaitsThroughRounds(cfg, v, rounds[..n], seconds);
      var u := After(cfg, v, rounds[..n]);
      if u.claim.Some? {
        WaitsUntilDue(cfg, u, rounds[n].instances, rounds[n].now, rounds[n].calls, seconds);
      }
    }
  }

  /** The first round that finds the instant passed. */
  lemma {:induction false} FirstDue(rounds: seq<Round>, due: Time) returns (j: nat)
    requires rounds != [] && rounds[|rounds| - 1].now >= due
    ensures j < |rounds| && rounds[j].now >= due && forall i :: 0 <= i < j ==> rounds[i].now < due
  {
    j := 0;
    while rounds[j].now < due
      invariant 0 <= j < |rounds|
      invariant forall i :: 0 <= i < j ==> rounds[i].now < due
      decreases |rounds| - j
    {
      j := j + 1;
    }
  }

  lemma {:induction false} AfterSplits(cfg: Settings, v: View, first: seq<Round>, rest: seq<Round>)
    ensures After(cfg, v, first + rest) == After(cfg, After(cfg, v, first), rest)
  {
    if rest == [] {
      assert first + rest == first;
    } else {
      var n := |rest| - 1;
      assert (first + rest)[..|first + rest| - 1] == first + rest[..n];
      AfterSplits(cfg, v, first, rest[..n]);
    }
  }

  /** Round `j` is the first to find the wake due: it starts one pause after a round that was early. */
  lemma FirstDueIsSoon(cfg: Settings, interval: int, rounds: seq<Round>, due: Time, j: nat)
    requires interval >= 10 && Paced(cfg, interval, rounds)
    requires 0 < j < |rounds| && rounds[j - 1].now < due
    ensures 20 * (rounds[j].calls.wake.patchAt - due) < 21 * interval + 1200 * SECOND
  {
  }

  /** A waiting session, swept until round `j` finds its wake due. */
  lemma WaitsThenResumes(cfg: Settings, v: View, rounds: seq<Round>, seconds: int, j: nat)
    requires 0 < j < |rounds| && forall i :: 0 <= i < |rounds| ==> FaultFree(rounds[i].calls, rounds[i].now)
    requires Waiting(After(cfg, v, rounds[..1]), seconds)
    requires seconds * SECOND <= rounds[j].now && forall i :: 0 <= i < j ==> rounds[i].now < seconds * SECOND
    ensures GoneOrResumed(cfg, v, rounds, j)
  {
    var between := rounds[1..j];
    WaitsThroughRounds(cfg, After(cfg, v, rounds[..1]), between, seconds);
    assert rounds[..j] == rounds[..1] + between;
    AfterSplits(cfg, v, rounds[..1], between);
    AfterNext(cfg, v, rounds, j, After(cfg, v, rounds[..j]), seconds);
  }

  lemma AfterNext(cfg: Settings, v: View, rounds: seq<Round>, j: nat, u: View, seconds: int)
    requires j < |rounds| && u == After(cfg, v, rounds[..j]) && (u.claim.None? || Waiting(u, seconds))
    requires FaultFree(rounds[j].calls, rounds[j].now) && seconds * SECOND <= rounds[j].now
    ensures GoneOrResumed(cfg, v, rounds, j)
  {
    assert rounds[..j + 1][..|rounds[..j + 1]| - 1] == rounds[..j];
    if u.claim.Some? {
      ResumesWhenDue(cfg, u, rounds[j].instances, rounds[j].now, rounds[j].calls, seconds);
    }
  }

  lemma AfterOne(cfg: Settings, v: View, rounds: seq<Round>)
    requires rounds != [] && v.claim.Some?
    ensures After(cfg, v, rounds[..1])
         == SessionSweep(cfg, v.claim.value, v, rounds[0].instances, rounds[0].now, rounds[0].calls).view
  {
  }

  predicate GoneOrResumed(cfg: Settings, v: View, rounds: seq<Round>, j: nat)
    requires j < |rounds|
  {
    var u := After(cfg, v, rounds[..j + 1]);
    u.claim.None? || Resumed(u, rounds[j].calls.wake.patchAt)
  }

  /** A session the first round suspends ahead of `fire` is running again after some later round,
      its resume patch landing less than 1.05 intervals and two cycle timeouts after the boot
      margin began, unless its TTL has ended it by then. */
  lemma ResumedInTime(cfg: Settings, interval: int, v: View, rounds: seq<Round>, fire: Time)
    requires interval >= 10 && RoomForTruncation(cfg)
    requires |rounds| > 1 && Paced(cfg, interval, rounds)
    requires v.claim.Some?
    requires Suspends(SessionSweep(cfg, v.claim.value, v, rounds[0].instances, rounds[0].now, rounds[0].calls), fire)
    requires rounds[|rounds| - 1].now >= fire - cfg.margin
    ensures exists j ::
      && 0 < j < |rounds|
      && GoneOrResumed(cfg, v, rounds, j)
      && 20 * (rounds[j].calls.wake.patchAt - (fire - cfg.margin)) < 21 * interval + 1200 * SECOND
  {
    SuspendLeavesItWaiting(cfg, v.claim.value, v, rounds[0].instances, rounds[0].now, rounds[0].calls, fire);
    var v1 := After(cfg, v, rounds[..1]);
    AfterOne(cfg, v, rounds);
    var seconds :| Waiting(v1, seconds) && rounds[0].now < seconds * SECOND <= fire - cfg.margin;
    var j := FirstDue(rounds, seconds * SECOND);
    WaitsThenResumes(cfg, v, rounds, seconds, j);
    FirstDueIsSoon(cfg, interval, rounds, seconds * SECOND, j);
  }

  /** And such a round comes: each one starts at least 0.95 intervals after the one before. */
  lemma {:induction false} RoundsAdvance(cfg: Settings, interval: int, rounds: seq<Round>)
    requires interval >= 10 && rounds != [] && Paced(cfg, interval, rounds)
    ensures 20 * (rounds[|rounds| - 1].now - rounds[0].start) >= 19 * interval * (|rounds| - 1)
  {
    var n := |rounds| - 1;
    if n > 0 {
      RoundsAdvance(cfg, interval, rounds[..n]);
      PauseWithinFivePercent(interval, rounds[n - 1].jitter);
      assert rounds[..n][n - 1] == rounds[n - 1];
      assert 19 * interval * n == 19 * interval * (n - 1) + 19 * interval;
    }
  }
}
