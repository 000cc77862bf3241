/** Destroying a session: what any number of failing attempts keep, and how they end. */
module DecommissionLaws {
  import opened Wrappers
  import opened GoTime
  import opened Network
  import opened Kube
  import opened Knobs
  import opened Relay
  import opened SessionStep
  import NormalForm

  /** A decommission purges the row or not, deletes the claim or not, and reports success exactly
      when every call it had to make was answered. */
  lemma DecommissionIs(enabled: bool, v: View, k: DecommissionCalls)
    ensures var d := Decommission(enabled, v, k);
      var reached := k.get.Delivered? && v.claim.Some?;
      var flagged := reached && v.claim.value.connector && enabled;
      var purged := flagged && k.purge != Refused && v.registered.Some?;
      var deleted := reached && k.delete != Refused && (flagged ==> k.purge.Delivered?);
      && d.deprovisioned == (flagged && k.purge.Delivered? && v.registered.Some?)
      && (d.err.None? <==> reached && (flagged ==> k.purge.Delivered?) && k.delete.Delivered?)
      && (d.err == Some(NotFound) <==> k.get.Delivered? && v.claim.None?)
      && (d.err.Some? ==> d.err == Some(NotFound) || d.err == Some(Unreachable))
      && d.view == View(if deleted then None else v.claim,
                        if deleted && v.claim.value.sandboxName != "" then None else v.sandbox,
                        if purged then None else v.registered, if purged then {} else v.bound, v.quiet)
  {
  }

  datatype Tally = Tally(view: View, reports: nat)

  /** The session after a sequence of attempts, and how many of them reported a deprovisioning. */
  function Attempts(enabled: bool, v: View, ks: seq<DecommissionCalls>): Tally {
    if ks == [] then Tally(v, 0)
    else
      var t := Attempts(enabled, v, ks[..|ks| - 1]);
      var d := Decommission(enabled, t.view, ks[|ks| - 1]);
      Tally(d.view, t.reports + if d.deprovisioned then 1 else 0)
  }

  /** The claim is the retry state: it outlives its gateway row. */
  predicate ClaimOutlivesRow(v: View) {
    v.claim.None? ==> v.registered.None?
  }

  predicate AllDelivered(k: DecommissionCalls) {
    k.get.Delivered? && k.purge.Delivered? && k.delete.Delivered?
  }

  /** Through any attempts, the claim stays the same or is gone, it never goes before the row, and
      a deprovisioning is reported at most once, as the row goes. */
  lemma {:induction false} AttemptsKeep(v: View, ks: seq<DecommissionCalls>)
    requires v.claim.Some? && v.claim.value.connector
    ensures var t := Attempts(true, v, ks);
      && (t.view.claim == v.claim || t.view.claim.None?)
      && ClaimOutlivesRow(t.view)
      && t.reports <= (if v.registered.Some? && t.view.registered.None? then 1 else 0)
      && (t.view.registered == v.registered || t.view.registered.None?)
  {
    if ks == [] {
    } else {
      AttemptsKeep(v, ks[..|ks| - 1]);
    }
  }

  /** However many attempts have failed in whatever way, one whose calls all get through leaves
      neither claim nor gateway row nor routes. */
  lemma RetriesConverge(v: View, ks: seq<DecommissionCalls>, k: DecommissionCalls)
    requires v.claim.Some? && v.claim.value.connector && AllDelivered(k)
    requires v.registered.None? ==> v.bound == {}
    ensures var t := Attempts(true, v, ks + [k]);
      && t.view.claim.None? && t.view.registered.None? && t.view.bound == {}
      && t.reports <= 1
  {
    AttemptsKeep(v, ks);
    RoutesGoWithTheRow(v, ks);
    assert (ks + [k])[..|ks|] == ks;
  }

  lemma {:induction false} RoutesGoWithTheRow(v: View, ks: seq<DecommissionCalls>)
    requires v.registered.None? ==> v.bound == {}
    ensures var t := Attempts(true, v, ks);
      t.view.registered.None? ==> t.view.bound == {}
  {
    if ks == [] {
    } else {
      RoutesGoWithTheRow(v, ks[..|ks| - 1]);
    }
  }

  /** A sweep destroys a claim only when it was listed as not terminating with a positive TTL that
      its age has reached, and only behind a purge if it is a connector session. */
  lemma SweepDestroysOnlyExpired(cfg: Settings, c: Claim, v: View, instances: Option<map<string, Instance>>, now: Time,
                                 k: Calls)
    requires v.claim.Some? && v.claim.value.connector == c.connector
    requires SessionSweep(cfg, c, v, instances, now, k).view.claim.None?
    ensures !c.terminating && EffectiveDuration(c.ttlSeconds, cfg.ttl) > 0
    ensures c.createdAt.Some? && now - c.createdAt.value >= EffectiveDuration(c.ttlSeconds, cfg.ttl)
    ensures c.connector && cfg.connectorEnabled ==> SessionSweep(cfg, c, v, instances, now, k).view.registered.None?
  {
    var w := WakeStep(c, v, now, k);
    assert w.claim.Some? && w.registered == v.registered && w.claim.value.connector == c.connector;
    var t := TtlStep(cfg, c, w, now, k).view;
    IdleKeepsTheClaim(cfg, c, t, instances, now, k);
    assert t.claim.None?;
    if c.createdAt.Some? && EffectiveTtl(cfg, c) > 0 {
      SubBelow(now, c.createdAt.value, EffectiveTtl(cfg, c));
    }
  }

  lemma IdleKeepsTheClaim(cfg: Settings, c: Claim, v: View, instances: Option<map<string, Instance>>, now: Time,
                          k: Calls)
    ensures var u := IdleStep(cfg, c, v, instances, now, k).0;
      (u.claim.Some? <==> v.claim.Some?) && u.registered == v.registered
  {
  }

  /** And without failures it destroys every one of them: age counts in exact arithmetic. */
  lemma FaultFreeSweepDestroysIffExpired(cfg: Settings, c: Claim, v: View, instances: Option<map<string, Instance>>,
                                         now: Time, k: Calls)
    requires v.claim == Some(c) && !c.terminating && NormalForm.FaultFree(k, now)
    ensures SessionSweep(cfg, c, v, instances, now, k).view.claim.None? <==>
      var ttl := EffectiveDuration(c.ttlSeconds, cfg.ttl);
      ttl > 0 && c.createdAt.Some? && now - c.createdAt.value >= ttl
  {
    hide EffectiveDuration;
    var w := WakeStep(c, v, now, k);
    assert w.claim.Some? && w.claim.value.connector == c.connector;
    IdleKeepsTheClaim(cfg, c, TtlStep(cfg, c, w, now, k).view, instances, now, k);
    hide IdleStep, WakeStep;
    if c.createdAt.Some? && EffectiveTtl(cfg, c) > 0 {
      SubBelow(now, c.createdAt.value, EffectiveTtl(cfg, c));
    }
  }
}
