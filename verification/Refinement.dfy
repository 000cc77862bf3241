/** The two layers agree: an operation or a sweeper's turn, taken as one function of the session's
    part of the world, is a run of the atomic steps with nothing in between. */
module Refinement {
  import opened Wrappers
  import opened GoTime
  import opened Network
  import opened Kube
  import opened Relay
  import opened Idle
  import opened SessionStep
  import opened Manager
  import I = Interleaving

  function EntryOf(claim: Option<Claim>): Option<I.Entry> {
    match claim
    case None => None
    case Some(c) => Some(I.Entry(c.wakeAt, c.sandboxName != ""))
  }

  function ModeOf(sandbox: Option<Sandbox>): Option<Mode> {
    match sandbox
    case None => None
    case Some(x) => Some(x.mode)
  }

  /** `s` shows the claim, the operating mode and the gateway row of `v`. */
  predicate Shows(s: I.Session, v: View) {
    s.claim == EntryOf(v.claim) && s.sandbox == ModeOf(v.sandbox) && s.registered == v.registered.Some?
  }

  // --- runs ---

  lemma Step(r: I.Rules, s: I.Session, a: I.Action, rest: seq<I.Action>) returns (acts: seq<I.Action>)
    requires I.Enabled(s, a) && I.Legal(r, I.Do(r, s, a), rest)
    ensures acts == [a] + rest && I.Legal(r, s, acts) && I.Run(r, s, acts) == I.Run(r, I.Do(r, s, a), rest)
  {
    acts := [a] + rest;
    assert acts[1..] == rest;
  }

  /** The empty run. */
  lemma Nothing(r: I.Rules) returns (acts: seq<I.Action>)
    ensures acts == []
    ensures forall s :: I.Legal(r, s, acts) && I.Run(r, s, acts) == s
  {
    acts := [];
  }

  lemma {:induction false} Joined(r: I.Rules, s: I.Session, first: seq<I.Action>, rest: seq<I.Action>)
    requires I.Legal(r, s, first) && I.Legal(r, I.Run(r, s, first), rest)
    ensures I.Legal(r, s, first + rest) && I.Run(r, s, first + rest) == I.Run(r, I.Run(r, s, first), rest)
    decreases first
  {
    if first == [] {
      assert first + rest == rest;
    } else {
      Joined(r, I.Do(r, s, first[0]), first[1..], rest);
      assert (first + rest)[1..] == first[1..] + rest;
    }
  }

  /** The steps of operation `i` alone, call by call, until it is done. */
  predicate OnlyProceeds(acts: seq<I.Action>, i: nat) {
    forall j :: 0 <= j < |acts| ==> acts[j].Proceed? && acts[j].i == i
  }

  /** One more call of operation `i`, which leaves it at `p`, then the rest. */
  lemma Call(r: I.Rules, s: I.Session, i: nat, net: Net, rest: seq<I.Action>) returns (acts: seq<I.Action>)
    requires i < |s.procs| && OnlyProceeds(rest, i)
    requires var (s', p') := I.Advance(r, s, s.procs[i], net);
      I.Legal(r, s'.(procs := s.procs[i := p']), rest)
    ensures OnlyProceeds(acts, i) && I.Legal(r, s, acts)
    ensures var (s', p') := I.Advance(r, s, s.procs[i], net);
      I.Run(r, s, acts) == I.Run(r, s'.(procs := s.procs[i := p']), rest)
  {
    hide I.Advance;
    acts := Step(r, s, I.Proceed(i, net), rest);
  }

  // --- the operations ---

  /** A wake is its three calls. */
  lemma WakeIsARun(r: I.Rules, s: I.Session, v: View, k: WakeCalls, i: nat) returns (acts: seq<I.Action>)
    requires Shows(s, v) && i < |s.procs| && s.procs[i] == I.WakeBegun
    ensures OnlyProceeds(acts, i) && I.Legal(r, s, acts)
    ensures Shows(I.Run(r, s, acts), WakeCall(v, k))
    ensures I.Run(r, s, acts).procs == s.procs[i := I.Done] && I.Run(r, s, acts).phase == s.phase
  {
    hide I.Legal, I.Run;
    acts := Nothing(r);
    var s1 := I.Do(r, s, I.Proceed(i, k.get));
    if s1.procs[i].WakeRead? {
      var s2 := I.Do(r, s1, I.Proceed(i, k.patch));
      if s2.procs[i].WakePatched? {
        acts := Call(r, s2, i, k.clear, acts);
      }
      acts := Call(r, s1, i, k.patch, acts);
    }
    acts := Call(r, s, i, k.get, acts);
  }

  /** A restart is its three calls. */
  lemma RestartIsARun(r: I.Rules, s: I.Session, v: View, k: RestartCalls, i: nat) returns (acts: seq<I.Action>)
    requires Shows(s, v) && i < |s.procs| && s.procs[i] == I.RestartBegun
    ensures OnlyProceeds(acts, i) && I.Legal(r, s, acts)
    ensures Shows(I.Run(r, s, acts), RestartCall(v, k))
    ensures I.Run(r, s, acts).procs == s.procs[i := I.Done] && I.Run(r, s, acts).phase == s.phase
  {
    hide I.Legal, I.Run;
    acts := Nothing(r);
    var s1 := I.Do(r, s, I.Proceed(i, k.get));
    if s1.procs[i].RestartRead? {
      var s2 := I.Do(r, s1, I.Proceed(i, k.suspend));
      acts := Call(r, s2, i, k.resume, acts);
      acts := Call(r, s1, i, k.suspend, acts);
    }
    acts := Call(r, s, i, k.get, acts);
  }

  /** A restart on a session that is up leaves it down exactly when it found the claim, its first
      half took effect, and its second half did not. */
  lemma RestartEndsAsleepIff(v: View, k: RestartCalls)
    requires v.sandbox.Some? && !v.sandbox.value.mode.Suspended?
    ensures var u := RestartCall(v, k);
      u.sandbox.Some? && (u.sandbox.value.mode.Suspended? <==>
        k.get.Delivered? && v.claim.Some? && k.suspend.Applied() && !k.resume.Applied())
  {
  }

  /** A decommission is its calls: the read, the purge of a connector session, the delete. */
  lemma DecommissionIsARun(r: I.Rules, s: I.Session, v: View, k: DecommissionCalls, i: nat)
    returns (acts: seq<I.Action>)
    requires Shows(s, v) && i < |s.procs| && s.procs[i] == I.DecommissionBegun
    requires v.claim.Some? ==> s.flagged == v.claim.value.connector
    ensures OnlyProceeds(acts, i) && I.Legal(r, s, acts)
    ensures Shows(I.Run(r, s, acts), Decommission(r.connectorEnabled, v, k).view)
    ensures I.Run(r, s, acts).procs == s.procs[i := I.Done] && I.Run(r, s, acts).phase == s.phase
  {
    hide I.Legal, I.Run;
    acts := Nothing(r);
    var s1 := I.Do(r, s, I.Proceed(i, k.get));
    if s1.procs[i].DecommissionRead? {
      if s.flagged && r.connectorEnabled {
        var s2 := I.Do(r, s1, I.Proceed(i, k.purge));
        if s2.procs[i].DecommissionPurged? {
          acts := Call(r, s2, i, k.delete, acts);
        }
        acts := Call(r, s1, i, k.purge, acts);
      } else {
        acts := Call(r, s1, i, k.delete, acts);
      }
    }
    acts := Call(r, s, i, k.get, acts);
  }

  // --- the sweeper's turn ---

  /** Steps of the sweeper only, none of which decides on a fire that is not `known`. */
  predicate OnlySweeps(acts: seq<I.Action>, known: Option<Time>) {
    && I.OnlyTheSweeper(acts)
    && forall j :: 0 <= j < |acts| && acts[j].SweepDecide? && acts[j].verdict.Some? && acts[j].verdict.value.Some? ==>
      acts[j].verdict.value == known
  }

  /** The sweeper leaves the operations in flight alone, and ends up in `phase`. */
  predicate Reaches(s: I.Session, u: I.Session, v: View, phase: I.Phase) {
    Shows(u, v) && u.procs == s.procs && u.flagged == s.flagged && u.phase == phase
  }

  /** sweepWake, from the listed claim to the TTL check. */
  lemma WakeStepIsARun(r: I.Rules, s: I.Session, c: Claim, v: View, now: Time, k: Calls) returns (acts: seq<I.Action>)
    requires Shows(s, v) && s.phase == I.Listing(c.wakeAt)
    ensures OnlySweeps(acts, None) && I.Legal(r, s, acts)
    ensures Reaches(s, I.Run(r, s, acts), WakeStep(c, v, now, k), I.TtlTurn)
  {
    var lagging := v.sandbox.Some? && v.sandbox.value.suspended;
    var due := c.wakeAt.At? && c.wakeAt.seconds * SECOND <= now;
    var check := I.SweepCheck(k.wakeRead, lagging, due);
    var s1 := I.Do(r, s, check);
    hide I.Legal, I.Run;
    acts := Nothing(r);
    if s1.phase.ClearDue? {
      acts := Step(r, s1, I.SweepClear(k.wakeClear), acts);
    } else if s1.phase.Calling? {
      acts := SweeperWakes(r, s1, v, k.wake);
    }
    acts := Step(r, s, check, acts);
  }

  lemma SweeperWakes(r: I.Rules, s: I.Session, v: View, k: WakeCalls) returns (acts: seq<I.Action>)
    requires Shows(s, v) && s.phase == I.Calling(I.WakeBegun)
    ensures OnlySweeps(acts, None) && I.Legal(r, s, acts)
    ensures Reaches(s, I.Run(r, s, acts), WakeCall(v, k), I.TtlTurn)
  {
    hide I.Legal, I.Run;
    acts := Nothing(r);
    var s1 := I.Do(r, s, I.SweepProceed(k.get));
    if s1.phase.Calling? {
      var s2 := I.Do(r, s1, I.SweepProceed(k.patch));
      if s2.phase.Calling? {
        acts := Step(r, s2, I.SweepProceed(k.clear), acts);
      }
      acts := Step(r, s1, I.SweepProceed(k.patch), acts);
    }
    acts := Step(r, s, I.SweepProceed(k.get), acts);
  }

  /** sweepTTL. */
  lemma TtlStepIsARun(cfg: Settings, s: I.Session, c: Claim, v: View, now: Time, k: Calls) returns (acts: seq<I.Action>)
    requires Shows(s, v) && s.phase.TtlTurn? && (v.claim.Some? ==> s.flagged == v.claim.value.connector)
    ensures var r := I.Rules(cfg.margin, cfg.connectorEnabled);
      && OnlySweeps(acts, None) && I.Legal(r, s, acts)
      && Reaches(s, I.Run(r, s, acts), TtlStep(cfg, c, v, now, k).view, I.IdleTurn)
  {
    var r := I.Rules(cfg.margin, cfg.connectorEnabled);
    var check := I.SweepTtl(Expired(cfg, c, now));
    var s1 := I.Do(r, s, check);
    hide I.Legal, I.Run, Decommission;
    acts := Nothing(r);
    if s1.phase.Purging? {
      acts := SweeperDecommissions(r, s1, v, k.ttl);
    }
    acts := Step(r, s, check, acts);
  }

  lemma SweeperDecommissions(r: I.Rules, s: I.Session, v: View, k: DecommissionCalls) returns (acts: seq<I.Action>)
    requires Shows(s, v) && s.phase == I.Purging(I.DecommissionBegun)
    requires v.claim.Some? ==> s.flagged == v.claim.value.connector
    ensures OnlySweeps(acts, None) && I.Legal(r, s, acts)
    ensures Reaches(s, I.Run(r, s, acts), Decommission(r.connectorEnabled, v, k).view, I.IdleTurn)
  {
    hide I.Legal, I.Run;
    acts := Nothing(r);
    var s1 := I.Do(r, s, I.SweepProceed(k.get));
    if s1.phase.Purging? {
      assert Shows(s1, v) && Reply(k.get, v.claim).None? && s1.phase == I.Purging(I.DecommissionRead);
      if s.flagged && r.connectorEnabled {
        acts := SweeperPurges(r, s1, v, k);
      } else {
        acts := Step(r, s1, I.SweepProceed(k.delete), acts);
      }
    }
    acts := Step(r, s, I.SweepProceed(k.get), acts);
  }

  lemma SweeperPurges(r: I.Rules, s: I.Session, v: View, k: DecommissionCalls) returns (acts: seq<I.Action>)
    requires Shows(s, v) && s.phase == I.Purging(I.DecommissionRead) && s.flagged && r.connectorEnabled
    ensures OnlySweeps(acts, None) && I.Legal(r, s, acts)
    ensures var v1 := PurgeCall(v, k.purge);
      Reaches(s, I.Run(r, s, acts), if k.purge.Delivered? then DeleteCall(v1, k.delete) else v1, I.IdleTurn)
  {
    hide I.Legal, I.Run;
    acts := Nothing(r);
    var s1 := I.Do(r, s, I.SweepProceed(k.purge));
    if s1.phase.Purging? {
      acts := Step(r, s1, I.SweepProceed(k.delete), acts);
    }
    acts := Step(r, s, I.SweepProceed(k.purge), acts);
  }

  /** What sweepIdle decides: not to suspend, or to suspend, perhaps ahead of a fire. */
  function Verdict(cfg: Settings, c: Claim, v: View, instances: Option<map<string, Instance>>, now: Time, k: Calls):
    Option<Option<Time>>
  {
    if !c.connector || instances.None? then None
    else
      var facts := IdleFacts(cfg, c, v, instances.value, now, k);
      var gate := CronGate(cfg, c, facts.sandbox, now, k);
      if !DecideIdle(facts) || gate.Blocked? then None
      else Some(if gate.wakeAt.Some? then KnownFire(cfg, k) else None)
  }

  /** sweepIdle. */
  lemma IdleStepIsARun(cfg: Settings, s: I.Session, c: Claim, v: View, instances: Option<map<string, Instance>>,
                       now: Time,
                       k: Calls)
    returns (acts: seq<I.Action>)
    requires Shows(s, v) && s.phase.IdleTurn?
    ensures var r := I.Rules(cfg.margin, cfg.connectorEnabled);
      && OnlySweeps(acts, KnownFire(cfg, k)) && I.Legal(r, s, acts)
      && Reaches(s, I.Run(r, s, acts), IdleStep(cfg, c, v, instances, now, k).0, I.Resting)
  {
    var r := I.Rules(cfg.margin, cfg.connectorEnabled);
    var verdict := Verdict(cfg, c, v, instances, now, k);
    var decide := I.SweepDecide(k.idleRead, false, verdict);
    acts := Nothing(r);
    hide I.Legal, I.Run;
    if verdict.Some? {
      var facts := IdleFacts(cfg, c, v, instances.value, now, k);
      DecideIdleIffJustified(facts);
      var gate := CronGate(cfg, c, facts.sandbox, now, k);
      hide DecideIdle;
      var v1 := if cfg.agentEnabled then v.(quiet := facts.quietSince) else v;
      acts := SuspendStepIsARun(r, I.Do(r, s, decide), c, v1, facts, gate, KnownFire(cfg, k), k);
    }
    acts := Step(r, s, decide, acts);
  }

  lemma SuspendStepIsARun(r: I.Rules, s: I.Session, c: Claim, v: View, facts: IdleInput, gate: Gate,
                          fire: Option<Time>, k: Calls)
    returns (acts: seq<I.Action>)
    requires Shows(s, v) && gate.Go?
    requires gate.wakeAt.Some? ==> fire.Some? && gate.wakeAt.value == fire.value - r.margin
    requires s.phase == if gate.wakeAt.Some? then I.Stamping(fire.value) else I.Sending(None)
    ensures OnlySweeps(acts, fire) && I.Legal(r, s, acts)
    ensures Reaches(s, I.Run(r, s, acts), SuspendStep(c, v, facts, gate, fire, k).0, I.Resting)
  {
    hide FormatWakeAt, I.Legal, I.Run;
    acts := Nothing(r);
    if s.phase.Stamping? {
      var s1 := I.Do(r, s, I.SweepStamp(k.stamp));
      if s1.phase.Sending? {
        acts := Step(r, s1, I.SweepSuspend(k.suspend), acts);
      }
      acts := Step(r, s, I.SweepStamp(k.stamp), acts);
    } else {
      acts := Step(r, s, I.SweepSuspend(k.suspend), acts);
    }
  }

  /** A turn on the claim as it is listed is a run of the sweeper's own steps. */
  lemma TurnIsARun(cfg: Settings, s: I.Session, c: Claim, v: View, instances: Option<map<string, Instance>>, now: Time,
                   k: Calls)
    returns (acts: seq<I.Action>)
    requires Shows(s, v) && v.claim == Some(c) && !c.terminating && s.flagged == c.connector && s.phase.Resting?
    ensures var r := I.Rules(cfg.margin, cfg.connectorEnabled);
      && OnlySweeps(acts, KnownFire(cfg, k)) && I.Legal(r, s, acts)
      && Reaches(s, I.Run(r, s, acts), SessionSweep(cfg, c, v, instances, now, k).view, I.Resting)
  {
    hide I.Do, I.Enabled, I.Legal, I.Run, IdleStep, Decommission, Expired;
    var r := I.Rules(cfg.margin, cfg.connectorEnabled);
    var s0 := ListIsAStep(r, s, c, v);
    var w := WakeStep(c, v, now, k);
    acts := [I.SweepList];
    var wake := WakeStepIsARun(r, s0, c, v, now, k);
    Joined(r, s, acts, wake);
    acts := acts + wake;
    var s1 := I.Run(r, s, acts);
    assert w.claim.Some? && w.claim.value.connector == c.connector;
    hide WakeStep, WakeCall;
    var ttl := TtlStepIsARun(cfg, s1, c, w, now, k);
    Joined(r, s, acts, ttl);
    acts := acts + ttl;
    var idle := IdleStepIsARun(cfg, I.Run(r, s, acts), c, TtlStep(cfg, c, w, now, k).view, instances, now, k);
    Joined(r, s, acts, idle);
    acts := acts + idle;
  }

  lemma ListIsAStep(r: I.Rules, s: I.Session, c: Claim, v: View) returns (s0: I.Session)
    requires Shows(s, v) && v.claim == Some(c) && s.phase.Resting?
    ensures I.Legal(r, s, [I.SweepList]) && I.Run(r, s, [I.SweepList]) == s0
    ensures s0 == s.(phase := I.Listing(c.wakeAt))
  {
    s0 := I.Do(r, s, I.SweepList);
    assert [I.SweepList][1..] == [];
  }

  // --- crons, when turns and operations are not interleaved ---

  /** No wake is between its read and its end. */
  predicate NoWakeUnderWay(s: I.Session) {
    forall p :: p in s.procs ==> !p.WakeRead? && !p.WakePatched?
  }

  predicate CanBeSpelled(r: I.Rules, fire: Option<Time>) {
    fire.Some? ==> FormatWakeAt(fire.value - r.margin).At?
  }

  /** Whatever fire the sweeper is acting on, its wake can be spelled. */
  predicate Spelled(r: I.Rules, s: I.Session) {
    (s.phase.Stamping? ==> CanBeSpelled(r, Some(s.phase.due))) && (s.phase.Sending? ==> CanBeSpelled(r, s.phase.fire))
  }

  /** The sweeper by itself keeps every fire it knows of. */
  lemma {:induction false} SweepsKeepTheCron(r: I.Rules, s: I.Session, acts: seq<I.Action>, known: Option<Time>)
    requires I.CronSafe(r, s) && I.StampHeld(r, s) && NoWakeUnderWay(s) && Spelled(r, s)
    requires I.Legal(r, s, acts) && OnlySweeps(acts, known) && CanBeSpelled(r, known)
    ensures I.Throughout(r, s, acts, x => I.CronKept(r, x)) && I.CronSafe(r, I.Run(r, s, acts))
    decreases acts
  {
    if acts == [] {
    } else {
      var s1 := I.Do(r, s, acts[0]);
      SweepLeavesProcs(r, s, acts[0], known, acts);
      hide I.Do;
      I.HeldStampsAreClean(r, s);
      I.StampsHold(r, s, acts[0]);
      I.StepIsCronSafe(r, s, acts[0]);
      SweepsKeepTheCron(r, s1, acts[1..], known);
    }
  }

  lemma SweepLeavesProcs(r: I.Rules, s: I.Session, a: I.Action, known: Option<Time>, acts: seq<I.Action>)
    requires NoWakeUnderWay(s) && Spelled(r, s) && I.Enabled(s, a) && CanBeSpelled(r, known)
    requires acts != [] && a == acts[0] && OnlySweeps(acts, known)
    ensures NoWakeUnderWay(I.Do(r, s, a)) && Spelled(r, I.Do(r, s, a))
  {
    hide FormatWakeAt;
  }

  /** A whole turn with nothing in between never loses a fire, whichever of its calls fail: the
      session it leaves is one whose wakes are safe from the operations that follow. */
  lemma AtomicTurnKeepsTheCron(cfg: Settings, s: I.Session, c: Claim, v: View, instances: Option<map<string, Instance>>,
                               now: Time, k: Calls)
    returns (acts: seq<I.Action>)
    requires Shows(s, v) && v.claim == Some(c) && !c.terminating && s.flagged == c.connector && s.phase.Resting?
    requires var r := I.Rules(cfg.margin, cfg.connectorEnabled);
      I.CronSafe(r, s) && NoWakeUnderWay(s) && CanBeSpelled(r, KnownFire(cfg, k))
    ensures var r := I.Rules(cfg.margin, cfg.connectorEnabled);
      && I.Legal(r, s, acts)
      && Reaches(s, I.Run(r, s, acts), SessionSweep(cfg, c, v, instances, now, k).view, I.Resting)
      && I.Throughout(r, s, acts, x => I.CronKept(r, x)) && I.CronSafe(r, I.Run(r, s, acts))
  {
    acts := TurnIsARun(cfg, s, c, v, instances, now, k);
    SweepsKeepTheCron(I.Rules(cfg.margin, cfg.connectorEnabled), s, acts, KnownFire(cfg, k));
  }

  /** Nor does an operation with nothing in between. */
  lemma {:induction false} AtomicOperationKeepsTheCron(r: I.Rules, s: I.Session, acts: seq<I.Action>, i: nat)
    requires I.CronSafe(r, s) && I.Legal(r, s, acts) && OnlyProceeds(acts, i)
    ensures I.Throughout(r, s, acts, x => I.CronKept(r, x)) && I.CronSafe(r, I.Run(r, s, acts))
    decreases acts
  {
    if acts == [] {
    } else {
      hide I.Do;
      I.StepIsCronSafe(r, s, acts[0]);
      AtomicOperationKeepsTheCron(r, I.Do(r, s, acts[0]), acts[1..], i);
    }
  }
}
