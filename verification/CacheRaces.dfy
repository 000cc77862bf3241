/** The instance cache under concurrent callers.

    `Instances` takes its lock twice, to look at the cache and to store a new map, and lists the
    connector in between; `invalidateInstances` may come at any point. Each critical section is
    one step here, and so is the connector's answer to a list. A caller that the cache serves
    changes nothing, so only those that have to list appear. */
module CacheRaces {
  import opened Wrappers
  import opened Relay

  /** A map, and how many invalidations had been made when the connector answered with it. */
  datatype Held = Held(byId: map<string, Instance>, era: nat)

  /** The cache, the answers that have not been stored yet, whether their callers have them
      already or they are still on the wire, and the number of invalidations so far. */
  datatype Shared = Shared(cached: Option<Held>, unstored: seq<Held>, era: nat)

  const FRESH: Shared := Shared(None, [], 0)

  /** The connector answers a list, some answer is stored, the cache is invalidated. */
  datatype Action = Answers(rows: seq<Instance>) | Stores(i: nat) | Invalidates

  predicate Enabled(s: Shared, a: Action) {
    a.Stores? ==> a.i < |s.unstored|
  }

  function Do(s: Shared, a: Action): Shared
    requires Enabled(s, a)
  {
    match a
    case Answers(rows) => s.(unstored := s.unstored + [Held(IndexById(rows), s.era)])
    case Stores(i) => s.(cached := Some(s.unstored[i]), unstored := s.unstored[..i] + s.unstored[i + 1..])
    case Invalidates => s.(cached := None, era := s.era + 1)
  }

  ghost predicate Legal(s: Shared, acts: seq<Action>)
    decreases acts
  {
    acts == [] || (Enabled(s, acts[0]) && Legal(Do(s, acts[0]), acts[1..]))
  }

  ghost function Run(s: Shared, acts: seq<Action>): Shared
    requires Legal(s, acts)
    decreases acts
  {
    if acts == [] then s else Run(Do(s, acts[0]), acts[1..])
  }

  /** No map claims to be younger than now. */
  predicate Dated(s: Shared) {
    (s.cached.Some? ==> s.cached.value.era <= s.era) && forall i :: 0 <= i < |s.unstored| ==> s.unstored[i].era <= s.era
  }

  /** The cache serves a map of the connector as it was before the invalidation that ended `era`. */
  predicate Outlived(s: Shared, era: nat) {
    s.cached.Some? && s.cached.value.era <= era
  }

  predicate AllLater(s: Shared, era: nat) {
    !Outlived(s, era) && s.era > era && forall i :: 0 <= i < |s.unstored| ==> s.unstored[i].era > era
  }

  lemma {:induction false} LaterStaysLater(s: Shared, acts: seq<Action>, era: nat)
    requires AllLater(s, era) && Legal(s, acts)
    ensures AllLater(Run(s, acts), era)
    decreases acts
  {
    if acts == [] {
    } else {
      LaterStaysLater(Do(s, acts[0]), acts[1..], era);
    }
  }

  /** Every state the cache can get into is dated. */
  lemma {:induction false} RunsAreDated(s: Shared, acts: seq<Action>)
    requires Dated(s) && Legal(s, acts)
    ensures Dated(Run(s, acts))
    decreases acts
  {
    if acts == [] {
    } else {
      RunsAreDated(Do(s, acts[0]), acts[1..]);
    }
  }

  /** After these steps the cache serves a map of the connector as it was in `era` or before. */
  ghost predicate ServesOld(s: Shared, acts: seq<Action>, era: nat) {
    Legal(s, acts) && Outlived(Run(s, acts), era)
  }

  /** Whatever has happened since the process started, a map can outlive an invalidation if and
      only if, when the invalidation comes, the connector has answered some list whose map is not
      stored yet; for callers one after the other none ever does. */
  lemma InvalidationIsOutlivedIff(before: seq<Action>)
    requires Legal(FRESH, before)
    ensures var s := Run(FRESH, before);
      s.unstored != [] <==> exists acts: seq<Action> :: ServesOld(Do(s, Invalidates), acts, s.era)
  {
    RunsAreDated(FRESH, before);
    var s := Run(FRESH, before);
    var after := Do(s, Invalidates);
    if s.unstored != [] {
      var acts := [Stores(0)];
      assert acts[1..] == [];
      assert ServesOld(after, acts, s.era);
    } else {
      forall acts: seq<Action>
        ensures !ServesOld(after, acts, s.era)
      {
        if Legal(after, acts) {
          LaterStaysLater(after, acts, s.era);
        }
      }
    }
  }
}
