/** A sweep is the parallel composition of its sessions' sweeps. */
module SweepLaws {
  import opened Wrappers
  import opened Network
  import opened Kube
  import opened Relay
  import opened SessionStep
  import opened Fleet

  /** Distinct claim names, and no sandbox behind two claims. */
  ghost predicate Separate(listed: seq<Claim>) {
    forall i, j :: 0 <= i < j < |listed| ==> Apart(SlotOf(listed[i]), SlotOf(listed[j]))
  }

  /** What session `c` makes of its own part of the world as the sweep begins. */
  function Alone(s: System, cfg: Settings, c: Claim, instances: Option<map<string, Instance>>, env: SweepEnv): Stepped {
    SessionSweep(cfg, c, PartOf(s.world, SlotOf(c)), instances, env.now, env.calls(c.name))
  }

  /** A key nobody in the list owns keeps its value. */
  lemma {:induction false} SweepFrame(s: System, cfg: Settings, listed: seq<Claim>,
                                      instances: Option<map<string, Instance>>, env: SweepEnv, t: Slot)
    requires forall i :: 0 <= i < |listed| ==> Apart(SlotOf(listed[i]), t)
    ensures PartOf(SweepClaims(s, cfg, listed, instances, env).world, t) == PartOf(s.world, t)
  {
    if listed == [] {
    } else {
      var n := |listed| - 1;
      SweepFrame(s, cfg, listed[..n], instances, env, t);
      var s1 := SweepClaims(s, cfg, listed[..n], instances, env);
      var v := PartOf(s1.world, SlotOf(listed[n]));
      var r := SessionSweep(cfg, listed[n], v, instances, env.now, env.calls(listed[n].name));
      GetPutApart(s1.world, SlotOf(listed[n]), t, r.view);
    }
  }

  /** After the sweep, each session's part is what its own step makes of what was there before,
      whatever the sessions swept before and after it did. */
  lemma {:induction false} SweepProjects(s: System, cfg: Settings, listed: seq<Claim>,
                                         instances: Option<map<string, Instance>>, env: SweepEnv, i: nat)
    requires Separate(listed) && i < |listed|
    ensures PartOf(SweepClaims(s, cfg, listed, instances, env).world, SlotOf(listed[i]))
         == Alone(s, cfg, listed[i], instances, env).view
  {
    hide SessionSweep, Put, PartOf;
    var n := |listed| - 1;
    var s1 := SweepClaims(s, cfg, listed[..n], instances, env);
    var slot := SlotOf(listed[n]);
    var r := SessionSweep(cfg, listed[n], PartOf(s1.world, slot), instances, env.now, env.calls(listed[n].name));
    SessionSweepUnbinds(cfg, listed[n], PartOf(s1.world, slot), instances, env.now, env.calls(listed[n].name));
    if i == n {
      SweepFrame(s, cfg, listed[..n], instances, env, slot);
      GetPut(s1.world, slot, r.view);
    } else {
      SweepProjects(s, cfg, listed[..n], instances, env, i);
      GetPutApart(s1.world, slot, SlotOf(listed[i]), r.view);
    }
  }

  /** The last session's step is what it would be alone. */
  lemma LastIsAlone(s: System, cfg: Settings, listed: seq<Claim>, instances: Option<map<string, Instance>>,
                    env: SweepEnv)
    requires Separate(listed) && listed != []
    ensures var n := |listed| - 1;
      SweepClaims(s, cfg, listed, instances, env).cached
        == if Alone(s, cfg, listed[n], instances, env).purged then None
           else SweepClaims(s, cfg, listed[..n], instances, env).cached
  {
    hide SessionSweep;
    SweepFrame(s, cfg, listed[..|listed| - 1], instances, env, SlotOf(listed[|listed| - 1]));
  }

  ghost predicate SomeonePurges(s: System, cfg: Settings, listed: seq<Claim>, instances: Option<map<string, Instance>>,
                                env: SweepEnv)
  {
    exists i :: 0 <= i < |listed| && Alone(s, cfg, listed[i], instances, env).purged
  }

  lemma SomeoneOrTheLast(s: System, cfg: Settings, listed: seq<Claim>, instances: Option<map<string, Instance>>,
                         env: SweepEnv)
    requires listed != []
    ensures var n := |listed| - 1;
      SomeonePurges(s, cfg, listed, instances, env) <==>
        SomeonePurges(s, cfg, listed[..n], instances, env) || Alone(s, cfg, listed[n], instances, env).purged
  {
    hide Alone;
    var n := |listed| - 1;
    if i :| 0 <= i < |listed| && Alone(s, cfg, listed[i], instances, env).purged && i < n {
      assert Alone(s, cfg, listed[..n][i], instances, env).purged;
    }
  }

  /** The cache survives exactly when no session's step purged a gateway. */
  lemma {:induction false} SweepCache(s: System, cfg: Settings, listed: seq<Claim>,
                                      instances: Option<map<string, Instance>>, env: SweepEnv)
    requires Separate(listed)
    ensures SweepClaims(s, cfg, listed, instances, env).cached
         == if SomeonePurges(s, cfg, listed, instances, env) then None else s.cached
  {
    if listed == [] {
    } else {
      hide Alone, SomeonePurges;
      SweepCache(s, cfg, listed[..|listed| - 1], instances, env);
      LastIsAlone(s, cfg, listed, instances, env);
      SomeoneOrTheLast(s, cfg, listed, instances, env);
    }
  }

  /** Worlds that agree at every key are equal. */
  lemma SameEverywhere(w: World, u: World)
    requires forall n :: Lookup(w.claims, n) == Lookup(u.claims, n)
    requires forall n :: Lookup(w.registered, n) == Lookup(u.registered, n)
    requires forall n :: Lookup(w.quiet, n) == Lookup(u.quiet, n)
    requires forall n :: Lookup(w.sandboxes, n) == Lookup(u.sandboxes, n)
    requires forall n :: Bound(w.routes, n) == Bound(u.routes, n)
    ensures w == u
  {
    SameMap(w.claims, u.claims);
    SameMap(w.registered, u.registered);
    SameMap(w.quiet, u.quiet);
    SameMap(w.sandboxes, u.sandboxes);
    forall chat ensures Lookup(w.routes, chat) == Lookup(u.routes, chat) {
      assert chat in w.routes ==> chat in Bound(w.routes, w.routes[chat]);
      assert chat in u.routes ==> chat in Bound(u.routes, u.routes[chat]);
    }
    SameMap(w.routes, u.routes);
  }

  lemma SameMap<K, V>(m: map<K, V>, k: map<K, V>)
    requires forall x :: Lookup(m, x) == Lookup(k, x)
    ensures m == k
  {
    forall x ensures x in m <==> x in k {
      assert Lookup(m, x) == Lookup(k, x);
    }
    forall x | x in m ensures m[x] == k[x] {
      assert Lookup(m, x) == Lookup(k, x);
    }
  }

  lemma TwiceCounted<T>(xs: seq<T>, i: nat, j: nat)
    requires i < j < |xs| && xs[i] == xs[j]
    ensures multiset(xs)[xs[i]] >= 2
  {
    assert xs == xs[..i + 1] + xs[i + 1..];
    assert xs[i] in xs[..i + 1] && xs[i] in xs[i + 1..] by {
      assert xs[..i + 1][i] == xs[i];
      assert xs[i + 1..][j - i - 1] == xs[j];
    }
  }

  lemma CountedOnce(xs: seq<Claim>, i: nat)
    requires Separate(xs) && i < |xs|
    ensures multiset(xs)[xs[i]] == 1
  {
    assert xs == xs[..i] + [xs[i]] + xs[i + 1..];
    assert xs[i] !in xs[..i];
    assert xs[i] !in xs[i + 1..];
  }

  lemma SeparateUpToOrder(xs: seq<Claim>, ys: seq<Claim>)
    requires Separate(xs) && multiset(xs) == multiset(ys)
    ensures Separate(ys)
  {
    forall i, j | 0 <= i < j < |ys| ensures Apart(SlotOf(ys[i]), SlotOf(ys[j])) {
      var a := Where(xs, ys, i);
      var b := Where(xs, ys, j);
      if a == b {
        TwiceCounted(ys, i, j);
        CountedOnce(xs, a);
        assert false;
      }
    }
  }

  lemma Where(xs: seq<Claim>, ys: seq<Claim>, j: nat) returns (i: nat)
    requires multiset(xs) == multiset(ys) && j < |ys|
    ensures i < |xs| && xs[i] == ys[j]
  {
    assert ys[j] in multiset(ys);
    assert ys[j] in multiset(xs);
    i :| 0 <= i < |xs| && xs[i] == ys[j];
  }

  /** One key of the two sweeps' results. */
  lemma SameAt(s: System, cfg: Settings, xs: seq<Claim>, ys: seq<Claim>, instances: Option<map<string, Instance>>,
               env: SweepEnv, t: Slot)
    requires Separate(xs) && Separate(ys) && multiset(xs) == multiset(ys)
    requires (exists i :: 0 <= i < |xs| && SlotOf(xs[i]) == t) || forall i :: 0 <= i < |xs| ==> Apart(SlotOf(xs[i]), t)
    ensures PartOf(SweepClaims(s, cfg, xs, instances, env).world, t)
         == PartOf(SweepClaims(s, cfg, ys, instances, env).world, t)
  {
    if i :| 0 <= i < |xs| && SlotOf(xs[i]) == t {
      var j := Where(ys, xs, i);
      SweepProjects(s, cfg, xs, instances, env, i);
      SweepProjects(s, cfg, ys, instances, env, j);
    } else {
      forall j | 0 <= j < |ys| ensures Apart(SlotOf(ys[j]), t) {
        var i := Where(xs, ys, j);
      }
      SweepFrame(s, cfg, xs, instances, env, t);
      SweepFrame(s, cfg, ys, instances, env, t);
    }
  }

  /** The order in which the claims are listed does not matter: same cluster, same connector,
      same quiet clocks, same cache. */
  lemma SweepOrderIsIrrelevant(s: System, cfg: Settings, xs: seq<Claim>, ys: seq<Claim>, env: SweepEnv)
    requires Separate(xs) && multiset(xs) == multiset(ys)
    ensures Sweep(s, cfg, xs, env).world == Sweep(s, cfg, ys, env).world
    ensures Sweep(s, cfg, xs, env).cached == Sweep(s, cfg, ys, env).cached
  {
    hide SessionSweep;
    SeparateUpToOrder(xs, ys);
    var instances := Instances(cfg.connectorEnabled, s.cached, env.consult);
    var s0 := Consulted(s, cfg, env);
    var w, u := SweepClaims(s0, cfg, xs, instances, env).world, SweepClaims(s0, cfg, ys, instances, env).world;
    forall n ensures Lookup(w.claims, n) == Lookup(u.claims, n) && Lookup(w.registered, n) == Lookup(u.registered, n)
                  && Lookup(w.quiet, n) == Lookup(u.quiet, n) && Bound(w.routes, n) == Bound(u.routes, n)
    {
      var t := ByName(xs, n);
      SameAt(s0, cfg, xs, ys, instances, env, t);
      assert PartOf(w, t) == PartOf(u, t);
    }
    forall b ensures Lookup(w.sandboxes, b) == Lookup(u.sandboxes, b) {
      var t := BySandbox(xs, b);
      SameAt(s0, cfg, xs, ys, instances, env, t);
      assert PartOf(w, t) == PartOf(u, t);
    }
    SameEverywhere(w, u);
    SweepCache(s0, cfg, xs, instances, env);
    SweepCache(s0, cfg, ys, instances, env);
    if i :| 0 <= i < |xs| && Alone(s0, cfg, xs[i], instances, env).purged {
      var j := Where(ys, xs, i);
      assert Alone(s0, cfg, ys[j], instances, env).purged;
    }
    if i :| 0 <= i < |ys| && Alone(s0, cfg, ys[i], instances, env).purged {
      var j := Where(xs, ys, i);
      assert Alone(s0, cfg, xs[j], instances, env).purged;
    }
    assert Names(xs) == Names(ys) by {
      forall i | 0 <= i < |xs| ensures xs[i].name in Names(ys) { var j := Where(ys, xs, i); }
      forall i | 0 <= i < |ys| ensures ys[i].name in Names(xs) { var j := Where(xs, ys, i); }
    }
  }

  /** The slot of the claim named `n`, or one apart from every listed slot. */
  lemma ByName(xs: seq<Claim>, n: string) returns (t: Slot)
    requires Separate(xs)
    ensures t.name == n
    ensures (exists i :: 0 <= i < |xs| && SlotOf(xs[i]) == t) || forall i :: 0 <= i < |xs| ==> Apart(SlotOf(xs[i]), t)
  {
    if i :| 0 <= i < |xs| && xs[i].name == n {
      t := SlotOf(xs[i]);
    } else {
      t := Slot(n, Unused(set i | 0 <= i < |xs| :: SlotOf(xs[i]).sandbox));
    }
  }

  lemma BySandbox(xs: seq<Claim>, b: string) returns (t: Slot)
    requires Separate(xs)
    ensures t.sandbox == b
    ensures (exists i :: 0 <= i < |xs| && SlotOf(xs[i]) == t) || forall i :: 0 <= i < |xs| ==> Apart(SlotOf(xs[i]), t)
  {
    if i :| 0 <= i < |xs| && SlotOf(xs[i]).sandbox == b {
      t := SlotOf(xs[i]);
    } else {
      t := Slot(Unused(set i | 0 <= i < |xs| :: xs[i].name), b);
    }
  }

  /** A string outside a finite set: one longer than all of them. */
  ghost function Unused(taken: set<string>): (s: string)
    ensures s !in taken
  {
    var n := Longest(taken);
    seq(n + 1, i => 'x')
  }

  ghost function Longest(taken: set<string>): (n: nat)
    ensures forall s :: s in taken ==> |s| <= n
    decreases taken
  {
    if taken == {} then 0
    else
      var s :| s in taken;
      var rest := Longest(taken - {s});
      if |s| > rest then |s| else rest
  }
}
