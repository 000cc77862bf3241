/** What the lifecycle-manager's memory says about its own past, over whole runs.

    A run interleaves the steps of sweeps with everything else that may happen to the system
    between any two of them: other uses of the instance cache, its invalidation, arbitrary
    changes to cluster and connector, and restarts of the process. The log is the history; the
    quiet clocks and the cache are functions of it, and every suspend in it can be justified
    from it. */
module History {
  import opened Wrappers
  import opened GoTime
  import opened Network
  import opened Kube
  import opened Relay
  import opened Knobs
  import opened Idle
  import opened SessionStep
  import opened Fleet

  /** A sweep under way: what it listed, the instance data it works on, and its one reading of
      the clock. */
  datatype Underway = Underway(listed: seq<Claim>, instances: Option<map<string, Instance>>, now: Time)

  datatype Process = Process(sys: System, sweep: Option<Underway>)

  datatype Event =
    | Begins(listed: seq<Claim>, consult: Consult, now: Time)
    | Turns(i: nat, calls: Calls)
    | Ends
    | Consults(consult: Consult)
    | Invalidates
    | Elsewhere(world: World)
    | Restarts(at: Time)

  /** A sweep begins with its list and its instance data, gives listed claims their turns, and
      ends by pruning the clocks; without a sweep under way a turn or an end is nothing. */
  function Next(p: Process, cfg: Settings, e: Event): Process {
    var s := p.sys;
    match e
    case Begins(listed, q, now) =>
      Process(ConsultedBy(s, cfg, q), Some(Underway(listed, Instances(cfg.connectorEnabled, s.cached, q), now)))
    case Turns(i, k) =>
      if p.sweep.None? || i >= |p.sweep.value.listed| then p
      else p.(sys := SweepSession(s, cfg, p.sweep.value.listed[i], p.sweep.value.instances, p.sweep.value.now, k))
    case Ends =>
      if p.sweep.None? then p else Process(PrunedTo(s, p.sweep.value.listed), None)
    case Consults(q) =>
      p.(sys := s.(cached := CachedAfter(cfg.connectorEnabled, s.cached, q),
                   log := s.log + ConsultObs(cfg.connectorEnabled, s.cached, q)))
    case Invalidates => p.(sys := s.(cached := None, log := s.log + [CacheCleared]))
    case Elsewhere(world) => p.(sys := s.(world := world.(quiet := s.world.quiet)))
    case Restarts(at) => Process(System(s.world.(quiet := map[]), None, s.log + [Restarted(at)]), None)
  }

  /** A process that has just started. */
  function Start(w: World, at: Time): Process {
    Process(System(w.(quiet := map[]), None, [Restarted(at)]), None)
  }

  function Run(p: Process, cfg: Settings, es: seq<Event>): Process {
    if es == [] then p else Next(Run(p, cfg, es[..|es| - 1]), cfg, es[|es| - 1])
  }

  /** The history a run leaves. */
  function Log(cfg: Settings, w: World, at: Time, es: seq<Event>): seq<Obs> {
    Run(Start(w, at), cfg, es).sys.log
  }

  // --- what the history says ---

  /** `o` ends any quiet streak of session `n`. */
  predicate Breaks(o: Obs, n: string) {
    match o
    case Polled(m, report, _) =>
      m == n && (report.None? || report.value.activeAgents > 0 || report.value.activeSessions > 0)
    case Pruned(alive) => n !in alive
    case Restarted(_) => true
    case _ => false
  }

  predicate QuietPoll(o: Obs, n: string) {
    && o.Polled? && o.name == n
    && o.report.Some? && o.report.value.activeAgents <= 0 && o.report.value.activeSessions <= 0
  }

  /** Entry `j` is a quiet poll of `n`, and nothing since has broken the streak. */
  ghost predicate StreakFrom(log: seq<Obs>, n: string, j: int) {
    0 <= j < |log| && QuietPoll(log[j], n) && forall i :: j < i < |log| ==> !Breaks(log[i], n)
  }

  /** And no quiet poll before `j` belongs to the same streak. */
  ghost predicate StreakStarts(log: seq<Obs>, n: string, j: int) {
    StreakFrom(log, n, j)
    && forall i :: 0 <= i < j && QuietPoll(log[i], n) ==> exists b :: i < b < j && Breaks(log[b], n)
  }

  /** The quiet clock, read off the history. */
  function QuietClock(log: seq<Obs>, n: string): Option<Time> {
    if log == [] then None
    else
      var last := log[|log| - 1];
      var before := QuietClock(log[..|log| - 1], n);
      if Breaks(last, n) then None
      else if QuietPoll(last, n) && before.None? then Some(last.at)
      else before
  }

  /** The instance cache, read off the history. */
  function CacheOf(log: seq<Obs>): Option<Cached> {
    if log == [] then None
    else
      match log[|log| - 1]
      case Listed(rows, at) => Some(Cached(IndexById(rows), at))
      case CacheCleared => None
      case Restarted(_) => None
      case _ => CacheOf(log[..|log| - 1])
  }

  /** The readout the current sweep works on. */
  function LastRead(log: seq<Obs>): Option<Obs> {
    if log == [] then None
    else if log[|log| - 1].SweepBegan? then Some(log[|log| - 1])
    else LastRead(log[..|log| - 1])
  }

  predicate DropsCache(o: Obs) {
    o.Listed? || o.CacheCleared? || o.Restarted?
  }

  /** A sweep's readout is the index of one reply of the connector, less than five seconds old
      when it was looked at, with no newer reply and no invalidation in between. */
  ghost predicate FreshRead(before: seq<Obs>, read: Obs)
    requires read.SweepBegan?
  {
    read.instances.Some? ==>
      exists j :: 0 <= j < |before| && before[j].Listed?
        && read.instances.value == IndexById(before[j].rows)
        && read.readAt - before[j].at < 5 * SECOND
        && forall i :: j < i < |before| ==> !DropsCache(before[i])
  }

  /** The suspend `sent` was fully justified by what had been observed `before` it. */
  ghost predicate SuspendJustified(cfg: Settings, before: seq<Obs>, sent: Obs)
    requires sent.SuspendSent?
  {
    && Justified(sent.facts)
    && sent.facts.agentEnabled == cfg.agentEnabled
    && LastRead(before).Some? && LastRead(before).value.SweepBegan? && LastRead(before).value.instances.Some?
    && sent.facts.instance == Lookup(LastRead(before).value.instances.value, sent.name)
    && (cfg.agentEnabled ==>
          exists j :: StreakFrom(before, sent.name, j) && before[j].at <= sent.facts.now - sent.facts.idleTimeout)
  }

  ghost predicate Sound(cfg: Settings, before: seq<Obs>, o: Obs) {
    && (o.SweepBegan? ==> FreshRead(before, o))
    && (o.SuspendSent? ==> SuspendJustified(cfg, before, o))
  }

  ghost predicate AllSound(cfg: Settings, log: seq<Obs>) {
    forall i :: 0 <= i < |log| ==> Sound(cfg, log[..i], log[i])
  }

  /** The memory agrees with the history, and the history is in order. */
  ghost predicate Remembers(s: System, cfg: Settings) {
    && (forall n :: Lookup(s.world.quiet, n) == QuietClock(s.log, n))
    && s.cached == CacheOf(s.log)
    && AllSound(cfg, s.log)
  }

  // --- lemmas about logs ---

  lemma {:induction false} QuietClockIsAStreak(log: seq<Obs>, n: string)
    ensures QuietClock(log, n).Some? ==>
      exists j :: StreakStarts(log, n, j) && log[j].at == QuietClock(log, n).value
    ensures QuietClock(log, n).None? ==> forall j :: !StreakFrom(log, n, j)
  {
    if log == [] {
    } else {
      var m := |log| - 1;
      var before := log[..m];
      QuietClockIsAStreak(before, n);
      if QuietClock(before, n).Some? && !Breaks(log[m], n) {
        var j :| StreakStarts(before, n, j) && before[j].at == QuietClock(before, n).value;
        assert StreakStarts(log, n, j) by {
          forall i | 0 <= i < j && QuietPoll(log[i], n) ensures exists b :: i < b < j && Breaks(log[b], n) {
            assert QuietPoll(before[i], n);
            var b :| i < b < j && Breaks(before[b], n);
            assert Breaks(log[b], n);
          }
        }
      } else if QuietClock(log, n).Some? {
        assert StreakStarts(log, n, m) by {
          forall i | 0 <= i < m && QuietPoll(log[i], n) ensures exists b :: i < b < m && Breaks(log[b], n) {
            assert !StreakFrom(before, n, i);
            assert QuietPoll(before[i], n);
            var b :| i < b < m && Breaks(before[b], n);
            assert Breaks(log[b], n);
          }
        }
      } else {
        forall j ensures !StreakFrom(log, n, j) {
          if StreakFrom(log, n, j) && j < m {
            assert StreakFrom(before, n, j);
          }
        }
      }
    }
  }

  /** A log has at most one entry that starts the current streak. */
  lemma StreakStartIsUnique(log: seq<Obs>, n: string, i: int, j: int)
    requires StreakStarts(log, n, i) && StreakStarts(log, n, j)
    ensures i == j
  {
  }

  lemma {:induction false} CacheOfIsAReply(log: seq<Obs>)
    ensures CacheOf(log).Some? ==>
      exists j :: 0 <= j < |log| && log[j].Listed? && CacheOf(log).value == Cached(IndexById(log[j].rows), log[j].at)
        && forall i :: j < i < |log| ==> !DropsCache(log[i])
  {
    if log == [] {
    } else {
      var m := |log| - 1;
      CacheOfIsAReply(log[..m]);
      if CacheOf(log).Some? {
        if log[m].Listed? {
          assert CacheOf(log).value == Cached(IndexById(log[m].rows), log[m].at);
        } else {
          var j :| 0 <= j < m && log[..m][j].Listed?
            && CacheOf(log[..m]).value == Cached(IndexById(log[..m][j].rows), log[..m][j].at)
            && forall i :: j < i < m ==> !DropsCache(log[..m][i]);
          assert log[j].Listed?;
          forall i | j < i < |log| ensures !DropsCache(log[i]) {
            if i < m { assert log[..m][i] == log[i]; }
          }
        }
      }
    }
  }

  lemma Append(cfg: Settings, log: seq<Obs>, o: Obs)
    requires AllSound(cfg, log) && Sound(cfg, log, o)
    ensures AllSound(cfg, log + [o])
    ensures CacheOf(log + [o]) == match o
      case Listed(rows, at) => Some(Cached(IndexById(rows), at))
      case CacheCleared => None
      case Restarted(_) => None
      case _ => CacheOf(log)
    ensures LastRead(log + [o]) == if o.SweepBegan? then Some(o) else LastRead(log)
  {
    var l := log + [o];
    assert l[..|log|] == log;
    forall i | 0 <= i < |l| ensures Sound(cfg, l[..i], l[i]) {
      if i < |log| { assert l[..i] == log[..i]; }
    }
  }

  lemma QuietClockAppend(log: seq<Obs>, o: Obs, n: string)
    ensures QuietClock(log + [o], n) ==
      if Breaks(o, n) then None
      else if QuietPoll(o, n) && QuietClock(log, n).None? then Some(o.at)
      else QuietClock(log, n)
  {
  }

  // --- one turn, one sweep, one run ---

  ghost predicate Reading(s: System, instances: Option<map<string, Instance>>) {
    LastRead(s.log).Some? && LastRead(s.log).value.SweepBegan? && LastRead(s.log).value.instances == instances
  }

  /** A session's turn keeps the memory true and sends no unjustified suspend. */
  lemma TurnRemembers(s: System, cfg: Settings, c: Claim, instances: Option<map<string, Instance>>, now: Time, k: Calls)
    requires Remembers(s, cfg) && Reading(s, instances)
    ensures var u := SweepSession(s, cfg, c, instances, now, k);
      Remembers(u, cfg) && Reading(u, instances)
  {
    var v := PartOf(s.world, SlotOf(c));
    SessionRemembers(s, cfg, c, v, instances, now, k);
    var r := SessionSweep(cfg, c, v, instances, now, k);
    RemembersAfter(s, cfg, SlotOf(c), r.view, if r.purged then None else s.cached, s.log + r.obs);
  }

  /** What a session's turn `r` must do to the history `log` and the cache. */
  ghost predicate Extends(cfg: Settings, log: seq<Obs>, name: string, r: Stepped) {
    && AllSound(cfg, log + r.obs) && LastRead(log + r.obs) == LastRead(log)
    && CacheOf(log + r.obs) == (if r.purged then None else CacheOf(log))
    && forall n :: QuietClock(log + r.obs, n) == if n == name then r.view.quiet else QuietClock(log, n)
  }

  lemma SessionRemembers(s: System, cfg: Settings, c: Claim, v: View, instances: Option<map<string, Instance>>,
                         now: Time, k: Calls)
    requires Remembers(s, cfg) && Reading(s, instances) && v.quiet == QuietClock(s.log, c.name)
    ensures Extends(cfg, s.log, c.name, SessionSweep(cfg, c, v, instances, now, k))
  {
    if c.terminating {
      assert s.log + [] == s.log;
    } else {
      var t := TtlStep(cfg, c, WakeStep(c, v, now, k), now, k);
      TtlRemembers(s, cfg, c, v, now, k);
      IdleRemembers(cfg, s.log + t.obs, c, t.view, instances, now, k);
      TurnExtends(s, cfg, c.name, t, IdleStep(cfg, c, t.view, instances, now, k));
    }
  }

  lemma TurnExtends(s: System, cfg: Settings, name: string, t: Stepped, i: (View, seq<Obs>))
    requires LastRead(s.log + t.obs) == LastRead(s.log)
    requires CacheOf(s.log + t.obs) == if t.purged then None else CacheOf(s.log)
    requires forall n :: QuietClock(s.log + t.obs, n) == QuietClock(s.log, n)
    requires AllSound(cfg, s.log + t.obs + i.1)
    requires LastRead(s.log + t.obs + i.1) == LastRead(s.log + t.obs)
    requires CacheOf(s.log + t.obs + i.1) == CacheOf(s.log + t.obs)
    requires forall n ::
      QuietClock(s.log + t.obs + i.1, n) == if n == name then i.0.quiet else QuietClock(s.log + t.obs, n)
    ensures Extends(cfg, s.log, name, Stepped(i.0, t.obs + i.1, t.purged))
  {
    assert s.log + t.obs + i.1 == s.log + (t.obs + i.1);
    forall n ensures QuietClock(s.log + (t.obs + i.1), n) == if n == name then i.0.quiet else QuietClock(s.log, n) {
      assert QuietClock(s.log + t.obs, n) == QuietClock(s.log, n);
    }
  }

  /** The memory's side of a step that may touch the clock of its own session only. */
  lemma RemembersAfter(s: System, cfg: Settings, slot: Slot, v: View, cached: Option<Cached>, log: seq<Obs>)
    requires Remembers(s, cfg)
    requires AllSound(cfg, log) && CacheOf(log) == cached
    requires forall n :: QuietClock(log, n) == if n == slot.name then v.quiet else QuietClock(s.log, n)
    ensures Remembers(System(Put(s.world, slot, v), cached, log), cfg)
  {
  }

  /** The wake and TTL steps leave the clock alone, and report a purge. */
  lemma TtlRemembers(s: System, cfg: Settings, c: Claim, v: View, now: Time, k: Calls)
    requires Remembers(s, cfg)
    ensures var t := TtlStep(cfg, c, WakeStep(c, v, now, k), now, k);
      && t.view.quiet == v.quiet
      && AllSound(cfg, s.log + t.obs) && LastRead(s.log + t.obs) == LastRead(s.log)
      && CacheOf(s.log + t.obs) == (if t.purged then None else s.cached)
      && (forall n :: QuietClock(s.log + t.obs, n) == QuietClock(s.log, n))
  {
    var t := TtlStep(cfg, c, WakeStep(c, v, now, k), now, k);
    if t.obs != [] {
      Append(cfg, s.log, CacheCleared);
      forall n { QuietClockAppend(s.log, CacheCleared, n); }
    } else {
      assert s.log + t.obs == s.log;
    }
  }

  /** What an idle step reports and does to the clock, without its cluster side. */
  lemma IdleStepReports(cfg: Settings, c: Claim, v: View, instances: map<string, Instance>, now: Time, k: Calls)
    requires c.connector
    ensures var facts := IdleFacts(cfg, c, v, instances, now, k);
      var polled := if cfg.agentEnabled then [Polled(c.name, facts.report, now)] else [];
      var (v2, obs) := IdleStep(cfg, c, v, Some(instances), now, k);
      && v2.quiet == (if cfg.agentEnabled then facts.quietSince else v.quiet)
      && (obs == polled || (DecideIdle(facts) && obs == polled + [SuspendSent(c.name, facts, KnownFire(cfg, k))]))
  {
  }

  lemma IdleRemembers(cfg: Settings, log: seq<Obs>, c: Claim, v: View, instances: Option<map<string, Instance>>,
                      now: Time, k: Calls)
    requires AllSound(cfg, log) && v.quiet == QuietClock(log, c.name)
    requires LastRead(log).Some? && LastRead(log).value.SweepBegan? && LastRead(log).value.instances == instances
    ensures var (v2, obs) := IdleStep(cfg, c, v, instances, now, k);
      && AllSound(cfg, log + obs) && CacheOf(log + obs) == CacheOf(log) && LastRead(log + obs) == LastRead(log)
      && (forall n :: QuietClock(log + obs, n) == if n == c.name then v2.quiet else QuietClock(log, n))
  {
    var (v2, obs) := IdleStep(cfg, c, v, instances, now, k);
    if !c.connector || instances.None? {
      assert log + obs == log;
    } else {
      IdleStepReports(cfg, c, v, instances.value, now, k);
      var facts := IdleFacts(cfg, c, v, instances.value, now, k);
      ReportsRemember(cfg, log, c.name, v, v2.quiet, facts, KnownFire(cfg, k), obs);
    }
  }

  lemma ReportsRemember(cfg: Settings, log: seq<Obs>, name: string, v: View, quiet: Option<Time>, facts: IdleInput,
                        fire: Option<Time>, obs: seq<Obs>)
    requires AllSound(cfg, log) && v.quiet == QuietClock(log, name)
    requires facts.agentEnabled == cfg.agentEnabled
    requires facts.quietSince == if cfg.agentEnabled then TrackQuiet(v.quiet, facts.report, facts.now) else None
    requires quiet == if cfg.agentEnabled then facts.quietSince else v.quiet
    requires LastRead(log).Some? && LastRead(log).value.SweepBegan? && LastRead(log).value.instances.Some?
    requires facts.instance == Lookup(LastRead(log).value.instances.value, name)
    requires var polled := if cfg.agentEnabled then [Polled(name, facts.report, facts.now)] else [];
      obs == polled || (DecideIdle(facts) && obs == polled + [SuspendSent(name, facts, fire)])
    ensures AllSound(cfg, log + obs) && CacheOf(log + obs) == CacheOf(log) && LastRead(log + obs) == LastRead(log)
    ensures forall n :: QuietClock(log + obs, n) == if n == name then quiet else QuietClock(log, n)
  {
    var polled := if cfg.agentEnabled then [Polled(name, facts.report, facts.now)] else [];
    var log1 := log + polled;
    if cfg.agentEnabled {
      Append(cfg, log, polled[0]);
      forall n { QuietClockAppend(log, polled[0], n); }
    } else {
      assert log1 == log;
    }
    if obs != polled {
      var sent := SuspendSent(name, facts, fire);
      DecideIdleIffJustified(facts);
      if cfg.agentEnabled {
        QuietClockIsAStreak(log1, name);
        var j :| StreakStarts(log1, name, j) && log1[j].at == facts.quietSince.value;
        assert StreakFrom(log1, name, j);
      }
      Append(cfg, log1, sent);
      forall n { QuietClockAppend(log1, sent, n); }
      assert log + obs == log1 + [sent];
    }
  }

  lemma ConsultRemembers(s: System, cfg: Settings, q: Consult)
    requires Remembers(s, cfg)
    ensures var log := s.log + ConsultObs(cfg.connectorEnabled, s.cached, q);
      && AllSound(cfg, log) && CacheOf(log) == CachedAfter(cfg.connectorEnabled, s.cached, q)
      && (forall n :: QuietClock(log, n) == QuietClock(s.log, n))
      && FreshRead(log, SweepBegan(Instances(cfg.connectorEnabled, s.cached, q), ReadAt(s.cached, q)))
  {
    var obs := ConsultObs(cfg.connectorEnabled, s.cached, q);
    var log := s.log + obs;
    if obs != [] {
      Append(cfg, s.log, obs[0]);
      forall n { QuietClockAppend(s.log, obs[0], n); }
      assert log[|s.log|] == obs[0];
    } else {
      assert log == s.log;
      if cfg.connectorEnabled && Hit(s.cached, q) {
        CacheOfIsAReply(s.log);
      }
    }
  }

  /** The memory is true, and the sweep under way works on the last readout. */
  ghost predicate Tells(p: Process, cfg: Settings) {
    Remembers(p.sys, cfg) && (p.sweep.Some? ==> Reading(p.sys, p.sweep.value.instances))
  }

  lemma BeginRemembers(s: System, cfg: Settings, q: Consult)
    requires Remembers(s, cfg)
    ensures Remembers(ConsultedBy(s, cfg, q), cfg)
    ensures Reading(ConsultedBy(s, cfg, q), Instances(cfg.connectorEnabled, s.cached, q))
  {
    ConsultRemembers(s, cfg, q);
    var log := s.log + ConsultObs(cfg.connectorEnabled, s.cached, q);
    var began := SweepBegan(Instances(cfg.connectorEnabled, s.cached, q), ReadAt(s.cached, q));
    Append(cfg, log, began);
    forall n { QuietClockAppend(log, began, n); }
  }

  /** One entry more, which says what became of the clocks and the cache. */
  lemma EntryRemembers(s: System, cfg: Settings, o: Obs)
    requires Remembers(s, cfg)
    ensures o.CacheCleared? ==> Remembers(s.(cached := None, log := s.log + [o]), cfg)
    ensures o.CacheCleared? ==> LastRead(s.log + [o]) == LastRead(s.log)
    ensures o.Restarted? ==> Remembers(System(s.world.(quiet := map[]), None, s.log + [o]), cfg)
    ensures o.Pruned? ==>
      Remembers(s.(world := s.world.(quiet := PruneQuiet(s.world.quiet, o.alive)), log := s.log + [o]), cfg)
  {
    if o.CacheCleared? || o.Restarted? || o.Pruned? {
      Append(cfg, s.log, o);
      forall n { QuietClockAppend(s.log, o, n); }
    }
  }

  lemma ConsultKeepsReading(log: seq<Obs>, obs: seq<Obs>)
    requires obs == [] || (|obs| == 1 && obs[0].Listed?)
    ensures LastRead(log + obs) == LastRead(log)
  {
    if obs == [] {
      assert log + obs == log;
    } else {
      assert (log + obs)[..|log|] == log;
    }
  }

  lemma NextTells(p: Process, cfg: Settings, e: Event)
    requires Tells(p, cfg)
    ensures Tells(Next(p, cfg, e), cfg)
  {
    hide QuietClock, CacheOf, LastRead, AllSound, SessionSweep;
    match e
    case Begins(_, q, _) => BeginRemembers(p.sys, cfg, q);
    case Turns(i, k) =>
      if p.sweep.Some? && i < |p.sweep.value.listed| {
        TurnRemembers(p.sys, cfg, p.sweep.value.listed[i], p.sweep.value.instances, p.sweep.value.now, k);
      }
    case Ends =>
      if p.sweep.Some? {
        EntryRemembers(p.sys, cfg, Pruned(Names(p.sweep.value.listed)));
      }
    case Consults(q) =>
      ConsultRemembers(p.sys, cfg, q);
      ConsultKeepsReading(p.sys.log, ConsultObs(cfg.connectorEnabled, p.sys.cached, q));
    case Invalidates => EntryRemembers(p.sys, cfg, CacheCleared);
    case Elsewhere(_) =>
    case Restarts(at) => EntryRemembers(p.sys, cfg, Restarted(at));
  }

  lemma {:induction false} RunTells(p: Process, cfg: Settings, es: seq<Event>)
    requires Tells(p, cfg)
    ensures Tells(Run(p, cfg, es), cfg)
  {
    if es == [] {
    } else {
      RunTells(p, cfg, es[..|es| - 1]);
      NextTells(Run(p, cfg, es[..|es| - 1]), cfg, es[|es| - 1]);
    }
  }

  lemma StartTells(cfg: Settings, w: World, at: Time)
    ensures Tells(Start(w, at), cfg)
  {
    assert [Restarted(at)] == [] + [Restarted(at)];
    Append(cfg, [], Restarted(at));
    forall n { QuietClockAppend([], Restarted(at), n); }
  }

  /** After any run, memory and history agree, and every entry is justified by those before it. */
  lemma RunRemembers(cfg: Settings, w: World, at: Time, es: seq<Event>)
    ensures Remembers(Run(Start(w, at), cfg, es).sys, cfg)
  {
    StartTells(cfg, w, at);
    RunTells(Start(w, at), cfg, es);
  }

  // --- a sweep with nothing in between ---

  function TurnsOf(listed: seq<Claim>, calls: string -> Calls, n: nat): (es: seq<Event>)
    requires n <= |listed|
    ensures |es| == n
  {
    seq(n, i requires 0 <= i < n => Turns(i, calls(listed[i].name)))
  }

  function SweepEvents(listed: seq<Claim>, env: SweepEnv): seq<Event> {
    [Begins(listed, env.consult, env.now)] + TurnsOf(listed, env.calls, |listed|) + [Ends]
  }

  lemma {:induction false} TurnsAreARun(s: System, cfg: Settings, listed: seq<Claim>, env: SweepEnv, n: nat)
    requires n <= |listed|
    ensures var instances := Instances(cfg.connectorEnabled, s.cached, env.consult);
      Run(Process(s, None), cfg, [Begins(listed, env.consult, env.now)] + TurnsOf(listed, env.calls, n))
        == Process(SweepClaims(Consulted(s, cfg, env), cfg, listed[..n], instances, env),
                   Some(Underway(listed, instances, env.now)))
  {
    hide SweepSession;
    var first := [Begins(listed, env.consult, env.now)];
    if n == 0 {
      assert first + TurnsOf(listed, env.calls, 0) == first;
      assert first[..0] == [];
      assert Run(Process(s, None), cfg, []) == Process(s, None);
    } else {
      TurnsAreARun(s, cfg, listed, env, n - 1);
      var es := first + TurnsOf(listed, env.calls, n);
      assert es[..|es| - 1] == first + TurnsOf(listed, env.calls, n - 1);
      assert listed[..n][..n - 1] == listed[..n - 1];
    }
  }

  /** A sweep as one function is the run of its steps. */
  lemma SweepIsARun(s: System, cfg: Settings, listed: seq<Claim>, env: SweepEnv)
    ensures Run(Process(s, None), cfg, SweepEvents(listed, env)) == Process(Sweep(s, cfg, listed, env), None)
  {
    hide SweepSession;
    TurnsAreARun(s, cfg, listed, env, |listed|);
    assert listed[..|listed|] == listed;
    var es := SweepEvents(listed, env);
    assert es[..|es| - 1] == [Begins(listed, env.consult, env.now)] + TurnsOf(listed, env.calls, |listed|);
  }

  lemma SweepRemembers(s: System, cfg: Settings, listed: seq<Claim>, env: SweepEnv)
    requires Remembers(s, cfg)
    ensures Remembers(Sweep(s, cfg, listed, env), cfg)
  {
    SweepIsARun(s, cfg, listed, env);
    RunTells(Process(s, None), cfg, SweepEvents(listed, env));
  }

  // --- the theorems ---

  /** The last readout of a history is one of its entries. */
  lemma {:induction false} LastReadIsAnEntry(log: seq<Obs>)
    requires LastRead(log).Some?
    ensures exists b :: 0 <= b < |log| && LastRead(log) == Some(log[b]) && log[b].SweepBegan?
  {
    var n := |log| - 1;
    if log[n].SweepBegan? {
      assert LastRead(log) == Some(log[n]);
    } else {
      LastReadIsAnEntry(log[..n]);
      var b :| 0 <= b < n && LastRead(log[..n]) == Some(log[..n][b]) && log[..n][b].SweepBegan?;
      assert LastRead(log) == Some(log[b]);
    }
  }

  /** The readout a suspend rests on, entry `b`, was fresh when its sweep looked at it. */
  ghost predicate RestsOnFreshRead(log: seq<Obs>, i: nat, b: int)
    requires i < |log|
  {
    0 <= b < i && log[b].SweepBegan? && LastRead(log[..i]) == Some(log[b]) && FreshRead(log[..b], log[b])
  }

  /** In any run, every suspend the sweeper sends has its full justification: in the readings it
      was decided on, in a readout less than five seconds old, and, with polling on, in a streak
      of quiet polls at least as long as the idle timeout. */
  lemma EverySuspendIsJustified(cfg: Settings, w: World, at: Time, es: seq<Event>, i: nat)
    requires i < |Log(cfg, w, at, es)| && Log(cfg, w, at, es)[i].SuspendSent?
    ensures var log := Log(cfg, w, at, es);
      SuspendJustified(cfg, log[..i], log[i]) && exists b :: RestsOnFreshRead(log, i, b)
  {
    RunRemembers(cfg, w, at, es);
    var log := Log(cfg, w, at, es);
    hide Run;
    assert Sound(cfg, log[..i], log[i]);
    LastReadIsAnEntry(log[..i]);
    var b :| 0 <= b < i && LastRead(log[..i]) == Some(log[..i][b]) && log[..i][b].SweepBegan?;
    assert Sound(cfg, log[..b], log[b]);
    assert RestsOnFreshRead(log, i, b);
  }

  /** The session as its turn's idle evaluation finds it. */
  function AtIdle(cfg: Settings, c: Claim, v: View, now: Time, k: Calls): View {
    TtlStep(cfg, c, WakeStep(c, v, now, k), now, k).view
  }

  /** The facts of a suspend are its turn's own: the sandbox read in it, the session's row of the
      sweep's instance data, its own timeout, the agent's answer, and its clock, kept or started. */
  ghost predicate ReadInTurn(facts: IdleInput, cfg: Settings, c: Claim, v: View, instances: map<string, Instance>,
                             now: Time, k: Calls)
  {
    && k.idleRead.Delivered? && facts.sandbox == v.sandbox
    && facts.instance == Lookup(instances, c.name)
    && facts.idleTimeout == EffectiveDuration(c.idleTimeoutSeconds, cfg.idleTimeout)
    && facts.now == now && facts.agentEnabled == cfg.agentEnabled
    && (cfg.agentEnabled ==>
          && facts.report == k.report && facts.quietSince == Some(if v.quiet.Some? then v.quiet.value else now)
          && v.sandbox.Some? && (v.sandbox.value.serviceFQDN != "" || cfg.exposure))
    && (!cfg.agentEnabled ==> facts.report == None && facts.quietSince == None)
  }

  /** Step `e` gives a listed claim its turn, and sends `o` on the facts of that session. */
  ghost predicate SentIn(cfg: Settings, p: Process, e: Event, o: Obs) {
    && o.SuspendSent? && e.Turns? && p.sweep.Some? && e.i < |p.sweep.value.listed| && p.sweep.value.instances.Some?
    && var u := p.sweep.value;
       var c := u.listed[e.i];
       var slot := Slot(c.name, if c.sandboxName == "" then c.name else c.sandboxName);
       var v := AtIdle(cfg, c, PartOf(p.sys.world, slot), u.now, e.calls);
       && !c.terminating && c.connector && o.name == c.name
       && o.nextFire == (if cfg.agentEnabled && cfg.cronConfigured && e.calls.cron.Schedule? then e.calls.cron.nextFire
                         else None)
       && ReadInTurn(o.facts, cfg, c, v, u.instances.value, u.now, e.calls)
  }

  lemma TurnSends(cfg: Settings, c: Claim, v: View, instances: Option<map<string, Instance>>, now: Time, k: Calls,
                  n: nat)
    requires var obs := SessionSweep(cfg, c, v, instances, now, k).obs;
      n < |obs| && obs[n].SuspendSent?
    ensures !c.terminating && c.connector && instances.Some?
    ensures var o := SessionSweep(cfg, c, v, instances, now, k).obs[n];
      && o.name == c.name && o.nextFire == KnownFire(cfg, k)
      && Justified(o.facts) && ReadInTurn(o.facts, cfg, c, AtIdle(cfg, c, v, now, k), instances.value, now, k)
  {
    if !c.terminating {
      var t := TtlStep(cfg, c, WakeStep(c, v, now, k), now, k);
      assert t.obs == [] || t.obs == [CacheCleared];
      hide WakeStep, TtlStep;
      if c.connector && instances.Some? {
        IdleStepReports(cfg, c, t.view, instances.value, now, k);
        DecideIdleIffJustified(IdleFacts(cfg, c, t.view, instances.value, now, k));
        hide IdleStep, DecideIdle;
      }
    }
  }

  lemma NewEntries(p: Process, cfg: Settings, e: Event)
    ensures var before, after := p.sys.log, Next(p, cfg, e).sys.log;
      && before <= after
      && forall n :: |before| <= n < |after| && after[n].SuspendSent? ==> SentIn(cfg, p, e, after[n])
  {
    hide SessionSweep, AtIdle, IdleFacts;
    if e.Turns? && p.sweep.Some? && e.i < |p.sweep.value.listed| {
      var u := p.sweep.value;
      var c := u.listed[e.i];
      var v := PartOf(p.sys.world, SlotOf(c));
      var obs := SessionSweep(cfg, c, v, u.instances, u.now, e.calls).obs;
      assert Next(p, cfg, e).sys.log == p.sys.log + obs;
      forall n | 0 <= n < |obs| && obs[n].SuspendSent?
        ensures SentIn(cfg, p, e, obs[n])
      {
        TurnSends(cfg, c, v, u.instances, u.now, e.calls, n);
      }
    }
  }

  /** In any run, every suspend is one turn's: its facts are what that turn read of that session. */
  lemma {:induction false} EverySuspendHasItsTurn(cfg: Settings, w: World, at: Time, es: seq<Event>, n: nat)
    requires n < |Log(cfg, w, at, es)| && Log(cfg, w, at, es)[n].SuspendSent?
    ensures exists j :: 0 <= j < |es| && SentIn(cfg, Run(Start(w, at), cfg, es[..j]), es[j], Log(cfg, w, at, es)[n])
  {
    hide Next, SentIn;
    var o := Log(cfg, w, at, es)[n];
    if es == [] {
    } else {
      var m := |es| - 1;
      NewEntries(Run(Start(w, at), cfg, es[..m]), cfg, es[m]);
      if n < |Log(cfg, w, at, es[..m])| {
        EverySuspendHasItsTurn(cfg, w, at, es[..m], n);
        var j :| 0 <= j < m && SentIn(cfg, Run(Start(w, at), cfg, es[..m][..j]), es[..m][j], o);
        assert es[..m][..j] == es[..j];
        assert SentIn(cfg, Run(Start(w, at), cfg, es[..j]), es[j], o);
      } else {
        assert SentIn(cfg, Run(Start(w, at), cfg, es[..m]), es[m], o);
      }
    }
  }

  /** In any run, every readout a sweep works on is a fresh reply of the connector. */
  lemma EveryReadIsFresh(cfg: Settings, w: World, at: Time, es: seq<Event>, i: nat)
    requires i < |Log(cfg, w, at, es)| && Log(cfg, w, at, es)[i].SweepBegan?
    ensures var log := Log(cfg, w, at, es);
      FreshRead(log[..i], log[i])
  {
    RunRemembers(cfg, w, at, es);
    var log := Log(cfg, w, at, es);
    assert Sound(cfg, log[..i], log[i]);
  }

  /** At any point of any run, whoever consults the cache, a sweep or a caller of the API, gets the
      index of a reply less than five seconds old with no newer one and no invalidation since, or
      nothing. */
  lemma EveryConsultIsFresh(cfg: Settings, w: World, at: Time, es: seq<Event>, q: Consult)
    ensures var s := Run(Start(w, at), cfg, es).sys;
      var told := Instances(cfg.connectorEnabled, s.cached, q);
      FreshRead(s.log + ConsultObs(cfg.connectorEnabled, s.cached, q), SweepBegan(told, ReadAt(s.cached, q)))
  {
    RunRemembers(cfg, w, at, es);
    ConsultRemembers(Run(Start(w, at), cfg, es).sys, cfg, q);
  }

  /** Entry `j` is the latest reply of the connector, and nothing has invalidated it. */
  ghost predicate Current(log: seq<Obs>, j: int) {
    0 <= j < |log| && log[j].Listed? && forall i :: j < i < |log| ==> !DropsCache(log[i])
  }

  lemma {:induction false} CurrentIsCached(log: seq<Obs>, j: int)
    requires Current(log, j)
    ensures CacheOf(log) == Some(Cached(IndexById(log[j].rows), log[j].at))
  {
    if j < |log| - 1 {
      CurrentIsCached(log[..|log| - 1], j);
    }
  }

  /** And exactly which one: a current reply under five seconds old is used again without asking the
      connector; otherwise the connector is asked, and without its answer there is none. */
  lemma ConsultsAreServed(cfg: Settings, w: World, at: Time, es: seq<Event>, q: Consult)
    requires cfg.connectorEnabled
    ensures var s := Run(Start(w, at), cfg, es).sys;
      var told := Instances(true, s.cached, q);
      && (forall j :: Current(s.log, j) && q.checkAt - s.log[j].at < 5 * SECOND ==>
            told == Some(IndexById(s.log[j].rows)) && ConsultObs(true, s.cached, q) == [])
      && ((forall j :: Current(s.log, j) ==> q.checkAt - s.log[j].at >= 5 * SECOND) ==>
            told == (if q.reply.Some? then Some(IndexById(q.reply.value)) else None))
  {
    RunRemembers(cfg, w, at, es);
    var s := Run(Start(w, at), cfg, es).sys;
    hide Run;
    CacheOfIsAReply(s.log);
    if s.cached.Some? {
      var j :| 0 <= j < |s.log| && s.log[j].Listed? && s.cached.value == Cached(IndexById(s.log[j].rows), s.log[j].at)
        && forall i :: j < i < |s.log| ==> !DropsCache(s.log[i]);
      assert Current(s.log, j);
    }
    forall j | Current(s.log, j)
      ensures s.cached == Some(Cached(IndexById(s.log[j].rows), s.log[j].at))
    {
      CurrentIsCached(s.log, j);
    }
  }

  /** In any run, session `n` has a quiet clock exactly while its latest idle evaluations form a
      quiet streak, and the clock shows when that streak's first poll was made. */
  lemma QuietClockRefinesHistory(cfg: Settings, w: World, at: Time, es: seq<Event>, n: string, t: Time)
    ensures var s := Run(Start(w, at), cfg, es).sys;
      Lookup(s.world.quiet, n) == Some(t) <==> exists j :: StreakStarts(s.log, n, j) && s.log[j].at == t
  {
    RunRemembers(cfg, w, at, es);
    var s := Run(Start(w, at), cfg, es).sys;
    QuietClockIsAStreak(s.log, n);
    if j :| StreakStarts(s.log, n, j) && s.log[j].at == t {
      assert StreakFrom(s.log, n, j);
      var i :| StreakStarts(s.log, n, i) && s.log[i].at == QuietClock(s.log, n).value;
      StreakStartIsUnique(s.log, n, i, j);
    }
  }

  /** A completed sweep leaves clocks for listed claims only. */
  lemma SweepPrunes(s: System, cfg: Settings, listed: seq<Claim>, env: SweepEnv)
    ensures Sweep(s, cfg, listed, env).world.quiet.Keys <= Names(listed)
  {
  }

  /** Nothing but a recorded suspend ever puts a session's sandbox to sleep during a sweep. */
  lemma OnlyRecordedSuspendsSuspend(cfg: Settings, c: Claim, v: View, instances: Option<map<string, Instance>>,
                                    now: Time, k: Calls)
    requires v.sandbox.Some? && !v.sandbox.value.mode.Suspended?
    ensures var r := SessionSweep(cfg, c, v, instances, now, k);
      r.view.sandbox.Some? && r.view.sandbox.value.mode.Suspended? ==>
        |r.obs| > 0 && r.obs[|r.obs| - 1].SuspendSent? && r.obs[|r.obs| - 1].name == c.name
        && r.obs[|r.obs| - 1].facts.now == now
  {
    hide IdleStep;
    if !c.terminating {
      var t := TtlStep(cfg, c, WakeStep(c, v, now, k), now, k).view;
      assert t.sandbox.Some? ==> !t.sandbox.value.mode.Suspended?;
      IdleStepSuspends(cfg, c, t, instances, now, k);
    }
  }

  lemma IdleStepSuspends(cfg: Settings, c: Claim, v: View, instances: Option<map<string, Instance>>, now: Time,
                         k: Calls)
    ensures var (u, obs) := IdleStep(cfg, c, v, instances, now, k);
      u.sandbox != v.sandbox ==>
        |obs| > 0 && obs[|obs| - 1].SuspendSent? && obs[|obs| - 1].name == c.name && obs[|obs| - 1].facts.now == now
  {
  }
}
