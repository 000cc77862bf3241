/** A sweep without failures brings every session into a normal form and is level-triggered:
    doing it again at the same instant on the same readings changes nothing. */
module NormalForm {
  import opened Wrappers
  import opened GoTime
  import opened Network
  import opened Kube
  import opened Relay
  import opened Idle
  import opened SessionStep
  import opened Fleet
  import opened SweepLaws

  /** Every call answered, no patch landing before the sweep looked at the clock. */
  predicate FaultFree(k: Calls, now: Time) {
    && k.wakeRead.Delivered? && k.wakeClear.Delivered?
    && k.wake.get.Delivered? && k.wake.patch.Delivered? && k.wake.clear.Delivered? && k.wake.patchAt >= now
    && k.ttl.get.Delivered? && k.ttl.purge.Delivered? && k.ttl.delete.Delivered?
    && k.idleRead.Delivered? && k.stamp.Delivered? && k.suspend.Delivered? && k.suspendAt >= now
  }

  /** The controller has caught up with the operating mode. */
  predicate IsSettled(sandbox: Option<Sandbox>) {
    sandbox.Some? ==> sandbox.value.suspended == sandbox.value.mode.Suspended?
  }

  /** The wake the sweeper might stamp for this reading is one RFC 3339 can spell. */
  predicate Spellable(cfg: Settings, k: Calls) {
    KnownFire(cfg, k).Some? ==> FormatWakeAt(KnownFire(cfg, k).value - cfg.margin).At?
  }

  /** The horizon leaves room for truncating the wake to whole seconds. */
  predicate RoomForTruncation(cfg: Settings) {
    cfg.horizon == MAX_INT64 || cfg.horizon - cfg.margin >= SECOND - 1
  }

  /** A session that still carries a wake-at is suspended, and the wake lies ahead. */
  predicate InNormalForm(claim: Option<Claim>, sandbox: Option<Sandbox>, now: Time) {
    claim.Some? && !claim.value.terminating && sandbox.Some? && !claim.value.wakeAt.Absent? ==>
      sandbox.value.mode.Suspended? && claim.value.wakeAt.At? && claim.value.wakeAt.seconds * SECOND > now
  }

  /** Whatever fails, a sweep changes nothing of a claim but its wake-at, and makes no claim. */
  lemma OnlyWakeAtChanges(cfg: Settings, c: Claim, v: View, instances: Option<map<string, Instance>>, now: Time,
                          k: Calls)
    ensures SameButWakeAt(v.claim, SessionSweep(cfg, c, v, instances, now, k).view.claim)
  {
    hide IdleStep, EffectiveTtl;
    if !c.terminating {
      var w := WakeStep(c, v, now, k);
      var t := TtlStep(cfg, c, w, now, k).view;
      assert SameButWakeAt(v.claim, w.claim);
      assert t.claim == w.claim || t.claim.None?;
      IdleStepKeepsClaim(cfg, c, t, instances, now, k);
    }
  }

  /** `after` is `before` with another wake-at, or gone. */
  predicate SameButWakeAt(before: Option<Claim>, after: Option<Claim>) {
    after.Some? ==> before.Some? && after.value == before.value.(wakeAt := after.value.wakeAt)
  }

  lemma IdleStepKeepsClaim(cfg: Settings, c: Claim, v: View, instances: Option<map<string, Instance>>, now: Time,
                           k: Calls)
    ensures SameButWakeAt(v.claim, IdleStep(cfg, c, v, instances, now, k).0.claim)
  {
  }

  /** The three ways out of sweepWake on a fault-free session. */
  lemma WakeStepSettles(cfg: Settings, c: Claim, v: View, now: Time, k: Calls)
    requires v.claim == Some(c) && FaultFree(k, now) && IsSettled(v.sandbox)
    ensures var u := WakeStep(c, v, now, k);
      && IsSettled(u.sandbox) && InNormalForm(u.claim, u.sandbox, now)
      && u.claim.Some? && u.claim.value == c.(wakeAt := u.claim.value.wakeAt)
      && (u.sandbox == v.sandbox || (u.sandbox.Some? && u.sandbox.value.mode.Running?
                                     && u.sandbox.value.readyChanged == Some(k.wake.patchAt)))
      && (u.sandbox.Some? && ShowsRunning(u.sandbox.value) ==> u.claim.value.wakeAt.Absent?)
      && WakeStep(u.claim.value, u, now, k) == u
  {
  }

  /** A suspend needs a running sandbox that has been ready for a while. */
  lemma IdleStepSettles(cfg: Settings, c: Claim, v: View, instances: Option<map<string, Instance>>, now: Time, k: Calls)
    requires v.claim.Some? && FaultFree(k, now) && IsSettled(v.sandbox)
    requires RoomForTruncation(cfg) && Spellable(cfg, k)
    requires InNormalForm(v.claim, v.sandbox, now)
    requires v.sandbox.Some? && ShowsRunning(v.sandbox.value) ==> v.claim.value.wakeAt.Absent?
    ensures var u := IdleStep(cfg, c, v, instances, now, k).0;
      && IsSettled(u.sandbox) && InNormalForm(u.claim, u.sandbox, now)
      && u.claim.Some? && u.registered == v.registered && u.bound == v.bound
      && ((u.claim, u.sandbox) != (v.claim, v.sandbox) ==>
        u.sandbox.Some? && u.sandbox.value.mode.Suspended? && u.sandbox.value.suspended)
  {
    if c.connector && instances.Some? {
      var facts := IdleFacts(cfg, c, v, instances.value, now, k);
      DecideIdleIffJustified(facts);
      var gate := CronGate(cfg, c, facts.sandbox, now, k);
      if gate.Go? && gate.wakeAt.Some? {
        StoredWakeIsInTime(KnownFire(cfg, k).value, now, cfg.horizon, cfg.margin);
      }
    }
  }

  /** Nothing is done twice: an idle step on its own result leaves claim and sandbox alone. */
  lemma IdleStepRepeats(cfg: Settings, c: Claim, c': Claim, v: View, instances: Option<map<string, Instance>>,
                        now: Time, k: Calls)
    requires v.claim.Some? && FaultFree(k, now) && c' == c.(wakeAt := c'.wakeAt)
    ensures var u := IdleStep(cfg, c, v, instances, now, k).0;
      var x := IdleStep(cfg, c', u, instances, now, k).0;
      && x.registered == u.registered && x.bound == u.bound
      && ((u.claim, u.sandbox) == (v.claim, v.sandbox) ==> (x.claim, x.sandbox) == (u.claim, u.sandbox))
  {
    if c.connector && instances.Some? {
      var u := IdleStep(cfg, c, v, instances, now, k).0;
      var facts := IdleFacts(cfg, c, v, instances.value, now, k);
      var again := IdleFacts(cfg, c', u, instances.value, now, k);
      if (u.claim, u.sandbox) == (v.claim, v.sandbox) {
        assert again.sandbox == facts.sandbox && again.report == facts.report;
        DecideIdleIffJustified(facts);
        DecideIdleIffJustified(again);
        assert again.quietSince == facts.quietSince;
        assert again == facts;
      }
    }
  }

  lemma SuspendedStays(cfg: Settings, c: Claim, u: View, instances: Option<map<string, Instance>>, now: Time, k: Calls)
    requires u.sandbox.Some? && u.sandbox.value.suspended
    ensures var x := IdleStep(cfg, c, u, instances, now, k).0;
      x.claim == u.claim && x.sandbox == u.sandbox && x.registered == u.registered && x.bound == u.bound
  {
  }

  /** One session, swept twice. */
  lemma SessionReachesNormalForm(cfg: Settings, c: Claim, v: View, instances: Option<map<string, Instance>>, now: Time,
                                 k: Calls)
    requires v.claim == Some(c) && FaultFree(k, now) && IsSettled(v.sandbox)
    requires RoomForTruncation(cfg) && Spellable(cfg, k)
    ensures var r := SessionSweep(cfg, c, v, instances, now, k);
      && InNormalForm(r.view.claim, r.view.sandbox, now)
      && (r.view.claim.Some? ==>
        var q := SessionSweep(cfg, r.view.claim.value, r.view, instances, now, k);
        && (q.view.claim, q.view.sandbox, q.view.registered, q.view.bound)
           == (r.view.claim, r.view.sandbox, r.view.registered, r.view.bound)
        && !q.purged)
  {
    hide IdleStep;
    var r := SessionSweep(cfg, c, v, instances, now, k);
    OnlyWakeAtChanges(cfg, c, v, instances, now, k);
    if !c.terminating {
      WakeStepSettles(cfg, c, v, now, k);
      var w := WakeStep(c, v, now, k);
      if !Expired(cfg, c, now) {
        IdleStepSettles(cfg, c, w, instances, now, k);
        var u := r.view;
        assert u == IdleStep(cfg, c, w, instances, now, k).0;
        var c' := u.claim.value;
        if (u.claim, u.sandbox) == (w.claim, w.sandbox) {
          IdleStepRepeats(cfg, c, c', w, instances, now, k);
          WakeStepRepeats(c', w, u, now, k);
        } else {
          SuspendedStays(cfg, c', u, instances, now, k);
        }
        assert WakeStep(c', u, now, k) == u;
        assert !Expired(cfg, c', now);
      } else {
        IdleStepKeepsClaim(cfg, c, TtlStep(cfg, c, w, now, k).view, instances, now, k);
      }
    }
  }

  lemma WakeStepRepeats(c: Claim, w: View, u: View, now: Time, k: Calls)
    requires WakeStep(c, w, now, k) == w
    requires w.claim == Some(c)
    requires u == w.(quiet := u.quiet)
    ensures WakeStep(c, u, now, k) == u
  {
  }

  /** What a sweep without failures starts from. */
  ghost predicate CleanStart(s: System, cfg: Settings, listed: seq<Claim>, env: SweepEnv) {
    && Lists(s.world.claims, listed) && Separate(listed) && RoomForTruncation(cfg)
    && forall i :: 0 <= i < |listed| ==>
      && FaultFree(env.calls(listed[i].name), env.now)
      && Spellable(cfg, env.calls(listed[i].name))
      && IsSettled(Lookup(s.world.sandboxes, listed[i].Resolve()))
  }

  /** After a fault-free sweep, every listed session is in normal form. */
  lemma SweepReachesNormalForm(s: System, cfg: Settings, listed: seq<Claim>, env: SweepEnv, i: nat)
    requires CleanStart(s, cfg, listed, env) && i < |listed|
    ensures var w := Sweep(s, cfg, listed, env).world;
      InNormalForm(Lookup(w.claims, listed[i].name), Lookup(w.sandboxes, listed[i].Resolve()), env.now)
  {
    var instances := Instances(cfg.connectorEnabled, s.cached, env.consult);
    AfterTheSweep(s, cfg, listed, env, i);
    SessionReachesNormalForm(cfg, listed[i], PartOf(s.world, SlotOf(listed[i])), instances, env.now,
                             env.calls(listed[i].name));
  }

  /** The session listed at `j` the second time is one of those swept the first time, still in
      the same slot, and its part of the world is what the first sweep left. */
  lemma SweptBefore(s: System, cfg: Settings, listed: seq<Claim>, env: SweepEnv, again: seq<Claim>, j: nat)
    returns (i: nat)
    requires CleanStart(s, cfg, listed, env)
    requires Lists(Sweep(s, cfg, listed, env).world.claims, again) && j < |again|
    ensures i < |listed| && SlotOf(again[j]) == SlotOf(listed[i])
    ensures var instances := Instances(cfg.connectorEnabled, s.cached, env.consult);
      && PartOf(Sweep(s, cfg, listed, env).world, SlotOf(listed[i]))
         == Alone(s, cfg, listed[i], instances, env).view
      && Alone(s, cfg, listed[i], instances, env).view.claim == Some(again[j])
  {
    hide SessionSweep;
    i := ListedBefore(s, cfg, listed, env, again[j].name);
    AfterTheSweep(s, cfg, listed, env, i);
    var instances := Instances(cfg.connectorEnabled, s.cached, env.consult);
    var w := Sweep(s, cfg, listed, env).world;
    OnlyWakeAtChanges(cfg, listed[i], PartOf(s.world, SlotOf(listed[i])), instances, env.now,
                      env.calls(listed[i].name));
    assert PartOf(w, SlotOf(listed[i])).claim == Some(again[j]);
  }

  /** A sweep makes no claims. */
  lemma ListedBefore(s: System, cfg: Settings, listed: seq<Claim>, env: SweepEnv, n: string) returns (i: nat)
    requires Lists(s.world.claims, listed) && Separate(listed)
    requires n in Sweep(s, cfg, listed, env).world.claims
    ensures i < |listed| && listed[i].name == n
  {
    hide SessionSweep;
    if forall i :: 0 <= i < |listed| ==> listed[i].name != n {
      var instances := Instances(cfg.connectorEnabled, s.cached, env.consult);
      var t := ByName(listed, n);
      SweepFrame(Consulted(s, cfg, env), cfg, listed, instances, env, t);
      assert false;
    }
    i :| 0 <= i < |listed| && listed[i].name == n;
  }

  /** Pruning spares the listed sessions. */
  lemma AfterTheSweep(s: System, cfg: Settings, listed: seq<Claim>, env: SweepEnv, i: nat)
    requires Separate(listed) && i < |listed|
    ensures PartOf(Sweep(s, cfg, listed, env).world, SlotOf(listed[i]))
         == Alone(s, cfg, listed[i], Instances(cfg.connectorEnabled, s.cached, env.consult), env).view
  {
    SweepProjects(Consulted(s, cfg, env), cfg, listed, Instances(cfg.connectorEnabled, s.cached, env.consult), env, i);
    assert listed[i].name in Names(listed);
  }

  /** The claims left after a sweep are still apart. */
  lemma StillSeparate(s: System, cfg: Settings, listed: seq<Claim>, env: SweepEnv, again: seq<Claim>)
    requires CleanStart(s, cfg, listed, env)
    requires Lists(Sweep(s, cfg, listed, env).world.claims, again)
    ensures Separate(again)
  {
    hide SessionSweep, Sweep;
    forall a, b | 0 <= a < b < |again| ensures Apart(SlotOf(again[a]), SlotOf(again[b])) {
      var i := SweptBefore(s, cfg, listed, env, again, a);
      var j := SweptBefore(s, cfg, listed, env, again, b);
      assert again[a].name != again[b].name;
    }
  }

  /** The second sweep of one session of the second list. */
  lemma SecondSweepAt(s: System, cfg: Settings, listed: seq<Claim>, env: SweepEnv, again: seq<Claim>, s2: System,
                      env2: SweepEnv, j: nat)
    requires CleanStart(s, cfg, listed, env) && env2.now == env.now && env2.calls == env.calls
    requires s2.world == Sweep(s, cfg, listed, env).world
    requires Lists(s2.world.claims, again) && Separate(again) && j < |again|
    ensures var instances := Instances(cfg.connectorEnabled, s.cached, env.consult);
      PartOf(SweepClaims(s2, cfg, again, instances, env2).world, SlotOf(again[j])).(quiet := None)
        == PartOf(s2.world, SlotOf(again[j])).(quiet := None)
  {
    hide SessionSweep, Sweep;
    var instances := Instances(cfg.connectorEnabled, s.cached, env.consult);
    var i := SweptBefore(s, cfg, listed, env, again, j);
    SweepProjects(s2, cfg, again, instances, env2, j);
    SessionReachesNormalForm(cfg, listed[i], PartOf(s.world, SlotOf(listed[i])), instances, env.now,
                             env.calls(listed[i].name));
  }

  /** A second fault-free sweep at the same instant, on the same readings, is a no-op on the
      cluster and on the connector. */
  lemma SecondSweepChangesNothing(s: System, cfg: Settings, listed: seq<Claim>, env: SweepEnv, again: seq<Claim>,
                                  consult: Consult)
    requires CleanStart(s, cfg, listed, env)
    requires var s1 := Sweep(s, cfg, listed, env);
      && Lists(s1.world.claims, again)
      && Instances(cfg.connectorEnabled, s1.cached, consult) == Instances(cfg.connectorEnabled, s.cached, env.consult)
    ensures var s1 := Sweep(s, cfg, listed, env);
      var s2 := Sweep(s1, cfg, again, env.(consult := consult));
      s2.world == s1.world.(quiet := s2.world.quiet)
  {
    hide SessionSweep, SweepClaims;
    var s1 := Sweep(s, cfg, listed, env);
    var env2 := env.(consult := consult);
    var instances := Instances(cfg.connectorEnabled, s.cached, env.consult);
    var s10 := Consulted(s1, cfg, env2);
    var w := SweepClaims(s10, cfg, again, instances, env2).world;
    StillSeparate(s, cfg, listed, env, again);
    forall t: Slot | (exists j :: 0 <= j < |again| && SlotOf(again[j]) == t)
                     || forall j :: 0 <= j < |again| ==> Apart(SlotOf(again[j]), t)
      ensures PartOf(w, t).(quiet := None) == PartOf(s1.world, t).(quiet := None)
    {
      if j :| 0 <= j < |again| && SlotOf(again[j]) == t {
        SecondSweepAt(s, cfg, listed, env, again, s10, env2, j);
      } else {
        SweepFrame(s10, cfg, again, instances, env2, t);
      }
    }
    SameButClocks(s1.world, w, again);
  }

  /** Worlds that agree on every slot but for its clock are the same but for the clocks. */
  lemma SameButClocks(w: World, u: World, listed: seq<Claim>)
    requires Separate(listed)
    requires forall t: Slot ::
      ((exists j :: 0 <= j < |listed| && SlotOf(listed[j]) == t)
       || forall j :: 0 <= j < |listed| ==> Apart(SlotOf(listed[j]), t)) ==>
        PartOf(u, t).(quiet := None) == PartOf(w, t).(quiet := None)
    ensures u.(quiet := w.quiet) == w
  {
    forall n ensures Lookup(u.claims, n) == Lookup(w.claims, n) && Lookup(u.registered, n) == Lookup(w.registered, n)
                  && Bound(u.routes, n) == Bound(w.routes, n)
    {
      var t := ByName(listed, n);
      assert PartOf(u, t).(quiet := None) == PartOf(w, t).(quiet := None);
    }
    forall b ensures Lookup(u.sandboxes, b) == Lookup(w.sandboxes, b) {
      var t := BySandbox(listed, b);
      assert PartOf(u, t).(quiet := None) == PartOf(w, t).(quiet := None);
    }
    SameEverywhere(u.(quiet := w.quiet), w);
  }
}
