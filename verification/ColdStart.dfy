/** A process that has just started re-earns every idle timeout. */
module ColdStart {
  import opened Wrappers
  import opened GoTime
  import opened Kube
  import opened Relay
  import opened SessionStep
  import opened Fleet
  import opened History

  /** The clock readings of a run's sweeps and restarts never go back. */
  ghost predicate InOrder(es: seq<Event>, at: Time) {
    && (forall i :: 0 <= i < |es| ==> at <= EventTime(es[i], at))
    && forall i, j :: 0 <= i < j < |es| && Timed(es[i]) && Timed(es[j]) ==> EventTime(es[i], at) <= EventTime(es[j], at)
  }

  predicate Timed(e: Event) {
    e.Begins? || e.Restarts?
  }

  function EventTime(e: Event, otherwise: Time): Time {
    match e
    case Begins(_, _, now) => now
    case Restarts(t) => t
    case _ => otherwise
  }

  /** Every poll comes after every restart that precedes it in the log. */
  ghost predicate PollsFollowRestarts(log: seq<Obs>) {
    forall i, j :: 0 <= i < j < |log| && log[i].Restarted? && log[j].Polled? ==> log[i].at <= log[j].at
  }

  ghost predicate RestartsBy(log: seq<Obs>, t: Time) {
    forall i :: 0 <= i < |log| && log[i].Restarted? ==> log[i].at <= t
  }

  /** The history is in order so far, and the sweep under way has read the clock since the last
      restart. */
  ghost predicate OnTime(p: Process, t: Time) {
    && PollsFollowRestarts(p.sys.log) && RestartsBy(p.sys.log, t)
    && (p.sweep.Some? ==> RestartsBy(p.sys.log, p.sweep.value.now))
  }

  /** `after` continues `before` with entries of a sweep at `now`. */
  ghost predicate Continues(before: seq<Obs>, after: seq<Obs>, now: Time) {
    before <= after
    && forall i :: |before| <= i < |after| ==> !after[i].Restarted? && (after[i].Polled? ==> after[i].at == now)
  }

  lemma SessionContinues(log: seq<Obs>, cfg: Settings, c: Claim, v: View, instances: Option<map<string, Instance>>,
                         now: Time, k: Calls)
    ensures Continues(log, log + SessionSweep(cfg, c, v, instances, now, k).obs, now)
  {
    if !c.terminating {
      var t := TtlStep(cfg, c, WakeStep(c, v, now, k), now, k);
      assert t.obs == [] || t.obs == [CacheCleared];
      hide WakeStep, TtlStep;
      if c.connector && instances.Some? {
        IdleStepReports(cfg, c, t.view, instances.value, now, k);
      }
    }
  }

  lemma ContinuesInOrder(before: seq<Obs>, after: seq<Obs>, now: Time)
    requires Continues(before, after, now) && PollsFollowRestarts(before) && RestartsBy(before, now)
    ensures PollsFollowRestarts(after)
    ensures forall t :: RestartsBy(before, t) ==> RestartsBy(after, t)
  {
    assert forall i :: 0 <= i < |before| ==> before[i] == after[i];
  }

  lemma NextInOrder(p: Process, cfg: Settings, e: Event, t: Time)
    requires OnTime(p, t) && (Timed(e) ==> t <= EventTime(e, t))
    ensures OnTime(Next(p, cfg, e), EventTime(e, t))
  {
    hide SessionSweep;
    var log := Next(p, cfg, e).sys.log;
    match e
    case Begins(_, _, now) => ContinuesInOrder(p.sys.log, log, now);
    case Turns(i, k) =>
      if p.sweep.Some? && i < |p.sweep.value.listed| {
        var u := p.sweep.value;
        var v := PartOf(p.sys.world, SlotOf(u.listed[i]));
        SessionContinues(p.sys.log, cfg, u.listed[i], v, u.instances, u.now, k);
        ContinuesInOrder(p.sys.log, log, u.now);
      }
    case Ends => ContinuesInOrder(p.sys.log, log, t);
    case Consults(_) => ContinuesInOrder(p.sys.log, log, t);
    case Invalidates =>
    case Elsewhere(_) =>
    case Restarts(_) =>
  }

  function LastEventTime(es: seq<Event>, at: Time): Time {
    if es == [] then at else EventTime(es[|es| - 1], LastEventTime(es[..|es| - 1], at))
  }

  lemma {:induction false} RunInOrder(cfg: Settings, w: World, at: Time, es: seq<Event>)
    requires InOrder(es, at)
    ensures OnTime(Run(Start(w, at), cfg, es), LastEventTime(es, at))
    ensures LastEventTime(es, at) == at
         || exists i :: 0 <= i < |es| && Timed(es[i]) && EventTime(es[i], at) == LastEventTime(es, at)
  {
    hide Next;
    if es == [] {
    } else {
      var n := |es| - 1;
      RunInOrder(cfg, w, at, es[..n]);
      NextInOrder(Run(Start(w, at), cfg, es[..n]), cfg, es[n], LastEventTime(es[..n], at));
      if i :| 0 <= i < n && Timed(es[..n][i]) && EventTime(es[..n][i], at) == LastEventTime(es[..n], at) {
        assert es[i] == es[..n][i];
      }
    }
  }

  /** With polling on, a suspend comes at least the idle timeout after any start or restart of
      the process: a new process re-earns the whole timeout. */
  lemma RestartsCostTheWholeTimeout(cfg: Settings, w: World, at: Time, es: seq<Event>, r: nat, i: nat)
    requires InOrder(es, at) && cfg.agentEnabled
    requires r < i < |Log(cfg, w, at, es)|
    requires Log(cfg, w, at, es)[r].Restarted? && Log(cfg, w, at, es)[i].SuspendSent?
    ensures var log := Log(cfg, w, at, es);
      log[i].facts.now - log[r].at >= log[i].facts.idleTimeout > 0
  {
    hide Run;
    EverySuspendIsJustified(cfg, w, at, es, i);
    RunInOrder(cfg, w, at, es);
    var log := Log(cfg, w, at, es);
    var j :| StreakFrom(log[..i], log[i].name, j) && log[..i][j].at <= log[i].facts.now - log[i].facts.idleTimeout;
    assert log[..i][r] == log[r] && Breaks(log[..i][r], log[i].name);
    assert log[..i][j] == log[j];
  }
}
