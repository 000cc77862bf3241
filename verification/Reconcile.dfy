/** The report of differences between the claims and the connector's instances. */
module Reconcile {
  import opened Wrappers
  import opened GoTime
  import opened Kube
  import opened Relay

  datatype Report = Report(claimsWithoutInstances: seq<string>, instancesWithoutClaims: seq<string>, lastRun: int)

  /** The connector-flagged claims the connector does not know, in the order listed. */
  function Unprovisioned(claims: seq<Claim>, instances: map<string, Instance>): seq<string> {
    if claims == [] then []
    else
      var last := claims[|claims| - 1];
      Unprovisioned(claims[..|claims| - 1], instances)
        + if last.connector && last.name !in instances then [last.name] else []
  }

  function Names(claims: seq<Claim>): set<string> {
    set claim | claim in claims :: claim.name
  }

  /** The ids of the set, each once and in no promised order. */
  ghost predicate Enumerates(ids: seq<string>, those: set<string>) {
    && (forall i, j :: 0 <= i < j < |ids| ==> ids[i] != ids[j])
    && (forall id :: id in ids <==> id in those)
  }

  /** The report that a claim list and an instance index call for. */
  ghost predicate Describes(r: Report, claims: seq<Claim>, instances: map<string, Instance>, now: Time) {
    && r.claimsWithoutInstances == Unprovisioned(claims, instances)
    && Enumerates(r.instancesWithoutClaims, instances.Keys - Names(claims))
    && r.lastRun == now / SECOND
  }

  class Store {
    var report: Option<Report>

    constructor ()
      ensures report.None?
    {
      report := None;
    }

    /** Without instance data the last report stays. */
    method Update(claims: seq<Claim>, instances: Option<map<string, Instance>>, now: Time)
      modifies this
      ensures instances.None? ==> report == old(report)
      ensures instances.Some? ==> report.Some? && Describes(report.value, claims, instances.value, now)
    {
      if instances.None? {
        return;
      }
      var index := instances.value;
      var missing: seq<string> := [];
      var claimed: set<string> := {};
      for k := 0 to |claims|
        invariant missing == Unprovisioned(claims[..k], index)
        invariant claimed == Names(claims[..k])
      {
        assert claims[..k + 1] == claims[..k] + [claims[k]];
        claimed := claimed + {claims[k].name};
        if claims[k].connector && claims[k].name !in index {
          missing := missing + [claims[k].name];
        }
      }
      assert claims[..|claims|] == claims;
      var unclaimed: seq<string> := [];
      var ids := index.Keys;
      while ids != {}
        invariant ids <= index.Keys
        invariant Enumerates(unclaimed, index.Keys - ids - claimed)
        decreases ids
      {
        var id :| id in ids;
        ids := ids - {id};
        if id !in claimed {
          assert forall i :: 0 <= i < |unclaimed| ==> unclaimed[i] in unclaimed;
          unclaimed := unclaimed + [id];
        }
      }
      report := Some(Report(missing, unclaimed, now / SECOND));
    }
  }

  lemma {:induction false} UnprovisionedAre(claims: seq<Claim>, instances: map<string, Instance>, id: string)
    ensures id in Unprovisioned(claims, instances) <==>
      id !in instances && exists k :: 0 <= k < |claims| && claims[k].name == id && claims[k].connector
  {
    if claims == [] {
    } else {
      var n := |claims| - 1;
      UnprovisionedAre(claims[..n], instances, id);
      if k :| 0 <= k < n && claims[k].name == id && claims[k].connector {
        assert claims[..n][k] == claims[k];
      }
    }
  }

  predicate Missing(claim: Claim, instances: map<string, Instance>) {
    claim.connector && claim.name !in instances
  }

  predicate Increasing(picks: seq<nat>) {
    forall i, j :: 0 <= i < j < |picks| ==> picks[i] < picks[j]
  }

  /** Each position is that of a missing claim, and each name that claim's. */
  predicate AreMissing(picks: seq<nat>, names: seq<string>, claims: seq<Claim>, instances: map<string, Instance>) {
    && |picks| == |names|
    && forall i :: 0 <= i < |picks| ==>
         picks[i] < |claims| && Missing(claims[picks[i]], instances) && names[i] == claims[picks[i]].name
  }

  ghost predicate CoverTheMissing(picks: seq<nat>, claims: seq<Claim>, instances: map<string, Instance>) {
    forall k: nat :: k < |claims| && Missing(claims[k], instances) ==> k in picks
  }

  /** The first difference is the flagged claims without a row, all of them, once per claim, in the
      order of the list. */
  lemma {:induction false} UnprovisionedInOrder(claims: seq<Claim>, instances: map<string, Instance>)
    returns (picks: seq<nat>)
    ensures Increasing(picks) && CoverTheMissing(picks, claims, instances)
    ensures AreMissing(picks, Unprovisioned(claims, instances), claims, instances)
  {
    picks := [];
    if claims != [] {
      var n := |claims| - 1;
      var before := UnprovisionedInOrder(claims[..n], instances);
      var names := Unprovisioned(claims[..n], instances);
      StillMissing(before, names, claims, instances);
      if Missing(claims[n], instances) {
        picks := before + [n];
        OneMore(before, names, claims, instances);
      } else {
        picks := before;
        NoMore(before, claims, instances);
      }
      assert Unprovisioned(claims, instances) == names + if Missing(claims[n], instances) then [claims[n].name] else [];
      hide Increasing, AreMissing, CoverTheMissing, Unprovisioned, Missing;
    }
  }

  lemma StillMissing(picks: seq<nat>, names: seq<string>, claims: seq<Claim>, instances: map<string, Instance>)
    requires claims != [] && AreMissing(picks, names, claims[..|claims| - 1], instances)
    ensures AreMissing(picks, names, claims, instances)
    ensures forall i :: 0 <= i < |picks| ==> picks[i] < |claims| - 1
  {
    hide Missing;
  }

  lemma NoMore(picks: seq<nat>, claims: seq<Claim>, instances: map<string, Instance>)
    requires claims != [] && !Missing(claims[|claims| - 1], instances)
    requires CoverTheMissing(picks, claims[..|claims| - 1], instances)
    ensures CoverTheMissing(picks, claims, instances)
  {
    hide Missing;
    forall k: nat | k < |claims| && Missing(claims[k], instances)
      ensures k in picks
    {
      assert claims[..|claims| - 1][k] == claims[k];
    }
  }

  lemma OneMore(before: seq<nat>, names: seq<string>, claims: seq<Claim>, instances: map<string, Instance>)
    requires claims != [] && Missing(claims[|claims| - 1], instances) && Increasing(before)
    requires forall i :: 0 <= i < |before| ==> before[i] < |claims| - 1
    requires CoverTheMissing(before, claims[..|claims| - 1], instances) && AreMissing(before, names, claims, instances)
    ensures var n := |claims| - 1;
      && Increasing(before + [n]) && CoverTheMissing(before + [n], claims, instances)
      && AreMissing(before + [n], names + [claims[n].name], claims, instances)
  {
    hide Missing;
    var n := |claims| - 1;
    forall k: nat | k < |claims| && Missing(claims[k], instances)
      ensures k in before + [n]
    {
      if k < n {
        assert claims[..n][k] == claims[k];
        assert k in before;
      }
    }
  }

  /** An empty report means the two sides agree: every flagged claim has its instance and
      every instance its claim. */
  lemma EmptyReportIff(r: Report, claims: seq<Claim>, instances: map<string, Instance>, now: Time)
    requires Describes(r, claims, instances, now)
    ensures r.claimsWithoutInstances == [] && r.instancesWithoutClaims == [] <==>
      && (forall k :: 0 <= k < |claims| && claims[k].connector ==> claims[k].name in instances)
      && (forall id :: id in instances ==> exists k :: 0 <= k < |claims| && claims[k].name == id)
  {
    if forall k :: 0 <= k < |claims| && claims[k].connector ==> claims[k].name in instances {
      if r.claimsWithoutInstances != [] {
        UnprovisionedAre(claims, instances, r.claimsWithoutInstances[0]);
      }
    } else {
      var k :| 0 <= k < |claims| && claims[k].connector && claims[k].name !in instances;
      UnprovisionedAre(claims, instances, claims[k].name);
    }
    if r.instancesWithoutClaims == [] {
      forall id | id in instances
        ensures exists k :: 0 <= k < |claims| && claims[k].name == id
      {
        assert id !in instances.Keys - Names(claims);
        var claim :| claim in claims && claim.name == id;
        var k :| 0 <= k < |claims| && claims[k] == claim;
      }
    } else {
      var id := r.instancesWithoutClaims[0];
      assert id in instances.Keys - Names(claims);
    }
  }
}
