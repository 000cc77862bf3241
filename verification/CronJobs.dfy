/** The earliest upcoming fire among a pod's cron jobs, and what the suspend gate makes of it. */
module CronJobs {
  import opened Wrappers
  import opened GoTime
  import opened Network
  import opened Kube
  import opened Relay
  import opened Idle
  import opened SessionStep

  /** A job's next_run_at: absent, an instant, or text that is neither RFC 3339 nor a naive
      ISO timestamp. */
  datatype RunAt = Unscheduled | Instant(at: Time) | Garbled

  /** `enabled` may be missing. */
  datatype Job = Job(enabled: Option<bool>, nextRunAt: RunAt)

  /** `r` is what a reader of the schedule may rely on: a job counts unless it is disabled or
      unscheduled. */
  ghost predicate IsEarliest(jobs: seq<Job>, r: Result<Option<Time>, Error>) {
    match r
    case Err(_) => exists i :: 0 <= i < |jobs| && jobs[i].enabled != Some(false) && jobs[i].nextRunAt.Garbled?
    case Ok(None) => forall i :: 0 <= i < |jobs| && jobs[i].enabled != Some(false) ==> jobs[i].nextRunAt.Unscheduled?
    case Ok(Some(fire)) =>
      && (exists i :: 0 <= i < |jobs| && jobs[i].enabled != Some(false) && jobs[i].nextRunAt == Instant(fire))
      && forall i :: 0 <= i < |jobs| && jobs[i].enabled != Some(false) && !jobs[i].nextRunAt.Unscheduled? ==>
           jobs[i].nextRunAt.Instant? && fire <= jobs[i].nextRunAt.at
  }

  /** NextCronFire, after the listing has been read. */
  method NextCronFire(jobs: seq<Job>) returns (r: Result<Option<Time>, Error>)
    ensures IsEarliest(jobs, r)
  {
    var earliest: Option<Time> := None;
    for k := 0 to |jobs|
      invariant IsEarliest(jobs[..k], Ok(earliest))
    {
      var job := jobs[k];
      if job.enabled == Some(false) || job.nextRunAt.Unscheduled? {
        assert jobs[..k + 1] == jobs[..k] + [job];
        continue;
      }
      if job.nextRunAt.Garbled? {
        return Err(Unreachable);
      }
      ghost var before := earliest;
      if earliest.None? || job.nextRunAt.at < earliest.value {
        earliest := Some(job.nextRunAt.at);
      }
      assert jobs[..k + 1] == jobs[..k] + [job];
      assert jobs[..k + 1][k] == job;
      if before.Some? {
        var i :| 0 <= i < k && jobs[..k][i].enabled != Some(false) && jobs[..k][i].nextRunAt == Instant(before.value);
        assert jobs[..k + 1][i] == jobs[..k][i];
      }
    }
    assert jobs[..|jobs|] == jobs;
    r := Ok(earliest);
  }

  /** The answer is determined by the jobs, so the method computes the only one there is: an error
      if and only if an enabled job is garbled, nothing if and only if no enabled job is scheduled. */
  lemma EarliestIsUnique(jobs: seq<Job>, r: Result<Option<Time>, Error>, q: Result<Option<Time>, Error>)
    requires IsEarliest(jobs, r) && IsEarliest(jobs, q)
    ensures r.Ok? <==> q.Ok?
    ensures r.Ok? ==> r == q
    ensures r.Err? <==> exists i :: 0 <= i < |jobs| && jobs[i].enabled != Some(false) && jobs[i].nextRunAt.Garbled?
    ensures r == Ok(None) <==>
      forall i :: 0 <= i < |jobs| && jobs[i].enabled != Some(false) ==> jobs[i].nextRunAt.Unscheduled?
  {
  }

  /** A disabled job never changes the answer, and one that does not say counts as enabled. */
  lemma EnabledJobsDecide(jobs: seq<Job>, r: Result<Option<Time>, Error>, i: nat)
    requires i < |jobs|
    ensures jobs[i].enabled == Some(false) ==> (IsEarliest(jobs, r) <==> IsEarliest(jobs[..i] + jobs[i + 1..], r))
    ensures jobs[i].enabled == None ==>
      (IsEarliest(jobs, r) <==> IsEarliest(jobs[i := jobs[i].(enabled := Some(true))], r))
  {
    var without := jobs[..i] + jobs[i + 1..];
    assert forall j :: 0 <= j < |without| ==> without[j] == jobs[if j < i then j else j + 1];
    assert forall j :: 0 <= j < |jobs| && j != i ==> jobs[j] == without[if j < i then j else j - 1];
    if jobs[i].enabled == None {
      var explicit := jobs[i := jobs[i].(enabled := Some(true))];
      assert forall j :: 0 <= j < |jobs| ==>
        explicit[j].nextRunAt == jobs[j].nextRunAt
        && (explicit[j].enabled != Some(false) <==> jobs[j].enabled != Some(false));
    }
  }

  /** A suspend the gate lets through has every counted fire beyond the horizon, and any
      scheduled wake precedes every one of them by the margin. */
  lemma GateKeepsEveryFire(jobs: seq<Job>, nextFire: Option<Time>, now: Time, horizon: Duration, margin: Duration)
    requires IsEarliest(jobs, Ok(nextFire))
    requires DecideCron(nextFire, now, horizon, margin).Go?
    ensures forall i :: 0 <= i < |jobs| && jobs[i].enabled != Some(false) && !jobs[i].nextRunAt.Unscheduled? ==>
      && jobs[i].nextRunAt.Instant?
      && jobs[i].nextRunAt.at - now > horizon
      && DecideCron(nextFire, now, horizon, margin).wakeAt.Some?
      && (var stored := FormatWakeAt(DecideCron(nextFire, now, horizon, margin).wakeAt.value);
          stored.At? ==> stored.seconds * SECOND <= jobs[i].nextRunAt.at - margin)
  {
  }

  /** And one it blocks has a fire inside the horizon. */
  lemma GateBlocksOnlyForANearFire(jobs: seq<Job>, nextFire: Option<Time>, now: Time, horizon: Duration,
                                   margin: Duration)
    requires IsEarliest(jobs, Ok(nextFire))
    requires DecideCron(nextFire, now, horizon, margin).Blocked?
    requires horizon < MAX_INT64
    ensures exists i :: 0 <= i < |jobs| && jobs[i].enabled != Some(false) && jobs[i].nextRunAt.Instant?
                        && jobs[i].nextRunAt.at - now <= horizon
  {
  }

  /** How the sweeper sees the outcome of reading the schedule. */
  function Seen(r: Result<Option<Time>, Error>): CronReply {
    match r
    case Ok(nextFire) => Schedule(nextFire)
    case Err(_) => Unreadable
  }

  /** From the pod's job list to the cluster: a turn that sends a suspend has read a well-formed
      schedule, every enabled fire lies beyond the horizon, and the wake now stored on the claim
      precedes every one of them by the margin. */
  lemma SuspendsKeepEveryFire(cfg: Settings, c: Claim, v: View, instances: Option<map<string, Instance>>, now: Time,
                              k: Calls,
                              jobs: seq<Job>, r: Result<Option<Time>, Error>)
    requires IsEarliest(jobs, r) && k.cron == Seen(r) && cfg.agentEnabled && cfg.cronConfigured
    requires var obs := SessionSweep(cfg, c, v, instances, now, k).obs;
      obs != [] && obs[|obs| - 1].SuspendSent?
    ensures r.Ok?
    ensures var claim := SessionSweep(cfg, c, v, instances, now, k).view.claim;
      forall i :: 0 <= i < |jobs| && jobs[i].enabled != Some(false) && !jobs[i].nextRunAt.Unscheduled? ==>
        && jobs[i].nextRunAt.Instant? && jobs[i].nextRunAt.at - now > cfg.horizon
        && claim.Some? && !claim.value.wakeAt.Absent?
        && (claim.value.wakeAt.At? ==> claim.value.wakeAt.seconds * SECOND <= jobs[i].nextRunAt.at - cfg.margin)
  {
    var t := TtlStep(cfg, c, WakeStep(c, v, now, k), now, k);
    assert t.obs == [] || t.obs == [CacheCleared];
    hide WakeStep, TtlStep, IdleStep;
    var (u, obs) := IdleStep(cfg, c, t.view, instances, now, k);
    assert obs == [] ==> t.obs + obs == t.obs;
    IdleSuspendIsStamped(cfg, c, t.view, instances, now, k);
    if r.Ok? {
      GateKeepsEveryFire(jobs, r.value, now, cfg.horizon, cfg.margin);
    }
  }

  /** A suspend that goes out has passed the gate, and any wake the gate asked for is stored. */
  lemma IdleSuspendIsStamped(cfg: Settings, c: Claim, v: View, instances: Option<map<string, Instance>>, now: Time,
                             k: Calls)
    requires cfg.agentEnabled && cfg.cronConfigured
    ensures var (u, obs) := IdleStep(cfg, c, v, instances, now, k);
      obs != [] && obs[|obs| - 1].SuspendSent? ==>
        && k.cron.Schedule? && DecideCron(k.cron.nextFire, now, cfg.horizon, cfg.margin).Go?
        && (k.cron.nextFire.Some? ==>
              u.claim.Some? && u.claim.value.wakeAt == FormatWakeAt(k.cron.nextFire.value - cfg.margin))
  {
    hide DecideIdle;
  }
}
