/** Losing the in-memory quiet clocks can only delay a suspend, and when that fails. */
module MemoryLoss {
  import opened Wrappers
  import opened GoTime
  import opened Network
  import opened Kube
  import opened Relay
  import opened Idle
  import opened SessionStep
  import opened Manager
  import opened History
  import opened DecommissionLaws

  /** One moment in the life of a session: a sweep lists it, a sweep gives it its turn (or ends
      without it), a whole operation on it, or something else that happens to it. Each acts on
      the session as it then is; `Changes` may rewrite anything but the wake-at, which only the
      program writes. */
  datatype Moment =
    | Lists
    | Turn(instances: Option<map<string, Instance>>, now: Time, calls: Calls)
    | Wakes(wake: WakeCalls)
    | Restarts(restart: RestartCalls)
    | Decommissions(decommission: DecommissionCalls)
    | Creates(claim: Claim)
    | Readies(ready: bool, at: Time)
    | Changes(edit: Claim, sandbox: Option<Sandbox>, registered: Option<Registration>, bound: set<Chat>, at: Time)

  /** A session, the claim the sweep under way has listed, and whether the sweeper has sent the
      session a suspend yet. */
  datatype Life = Life(view: View, listed: Option<Claim>, suspended: bool)

  predicate Sends(r: Stepped) {
    exists i :: 0 <= i < |r.obs| && r.obs[i].SuspendSent?
  }

  function TurnOn(cfg: Settings, l: Life, instances: Option<map<string, Instance>>, now: Time, k: Calls): Life {
    match l.listed
    case None => l.(view := l.view.(quiet := None))
    case Some(c) =>
      var r := SessionSweep(cfg, c, l.view, instances, now, k);
      Life(r.view, None, l.suspended || Sends(r))
  }

  function Edited(claim: Option<Claim>, edit: Claim): Option<Claim> {
    match claim
    case None => None
    case Some(c) => Some(edit.(name := c.name, wakeAt := c.wakeAt))
  }

  function Readied(sandbox: Option<Sandbox>, ready: bool, at: Time): Option<Sandbox> {
    match sandbox
    case None => None
    case Some(x) => Some(x.(ready := ready, readyChanged := Some(at)))
  }

  /** What anything but a turn makes of the session. */
  function OutsideOn(cfg: Settings, v: View, m: Moment): View
    requires !m.Turn?
  {
    match m
    case Lists => v
    case Wakes(k) => WakeCall(v, k)
    case Restarts(k) => RestartCall(v, k)
    case Decommissions(k) => Decommission(cfg.connectorEnabled, v, k).view
    case Creates(claim) => if v.claim.Some? then v else v.(claim := Some(claim.(wakeAt := Absent)))
    case Readies(ready, at) => v.(sandbox := Readied(v.sandbox, ready, at))
    case Changes(edit, sandbox, registered, bound, _) =>
      View(Edited(v.claim, edit), sandbox, registered, bound, v.quiet)
  }

  function LiveOn(cfg: Settings, l: Life, m: Moment): Life {
    match m
    case Turn(instances, now, k) => TurnOn(cfg, l, instances, now, k)
    case Lists => l.(listed := l.view.claim)
    case _ => l.(view := OutsideOn(cfg, l.view, m))
  }

  function Forget(l: Life, loses: bool): Life {
    if loses then l.(view := l.view.(quiet := None)) else l
  }

  /** The life after all of `ms`, with the clocks lost before every moment `loses` names. */
  function Live(cfg: Settings, l: Life, ms: seq<Moment>, loses: nat -> bool): Life {
    if ms == [] then l
    else
      var n := |ms| - 1;
      LiveOn(cfg, Forget(Live(cfg, l, ms[..n], loses), loses(n)), ms[n])
  }

  // --- time ---

  /** When a sweep last read the clock. */
  function LastTime(ms: seq<Moment>, from: Time): Time {
    if ms == [] then from
    else if ms[|ms| - 1].Turn? then ms[|ms| - 1].now
    else LastTime(ms[..|ms| - 1], from)
  }

  /** The clock never runs backwards. */
  ghost predicate Ordered(ms: seq<Moment>, from: Time) {
    forall i :: 0 <= i < |ms| && ms[i].Turn? ==> LastTime(ms[..i], from) <= ms[i].now
  }

  predicate ClockBy(v: View, t: Time) {
    v.quiet.Some? ==> v.quiet.value <= t
  }

  // --- one life behind the other ---

  /** The forgetful clock is absent, or started no earlier than the other. */
  predicate Later(b: Option<Time>, a: Option<Time>) {
    b.Some? ==> a.Some? && a.value <= b.value
  }

  predicate Sleeps(sandbox: Option<Sandbox>) {
    sandbox.Some? && !ShowsRunning(sandbox.value)
  }

  /** The two claims, if any, are one but for the wake-at. */
  predicate Twins(d: Option<Claim>, c: Option<Claim>) {
    (d.Some? <==> c.Some?) && (c.Some? ==> d.value == c.value.(wakeAt := d.value.wakeAt))
  }

  predicate NoWake(c: Option<Claim>) {
    c.Some? ==> !c.value.wakeAt.At?
  }

  /** The forgetful life `b` sleeps, with no wake of its own, where the other has been resumed. */
  predicate Overslept(b: Life, a: Life) {
    && Sleeps(b.view.sandbox) && a.view.sandbox.Some? && !Sleeps(a.view.sandbox)
    && b.view.sandbox.value.serviceFQDN == a.view.sandbox.value.serviceFQDN
    && NoWake(b.view.claim) && NoWake(b.listed)
  }

  /** A wake-at is only ever cleared between list and turn. */
  predicate Follows(l: Life) {
    l.listed.Some? && l.view.claim.Some? ==>
      l.view.claim.value.wakeAt == l.listed.value.wakeAt || l.view.claim.value.wakeAt.Absent?
  }

  /** Two lives of one session: the forgetful one's clock is absent or later, the wake-ats may be
      any, and the sandbox is the same unless the forgetful life has overslept. */
  predicate Behind(b: Life, a: Life, now: Time) {
    && b.view == a.view.(quiet := b.view.quiet, claim := b.view.claim, sandbox := b.view.sandbox)
    && Later(b.view.quiet, a.view.quiet) && ClockBy(a.view, now) && ClockBy(b.view, now)
    && Twins(b.view.claim, a.view.claim) && Twins(b.listed, a.listed) && Follows(a) && Follows(b)
    && (b.view.sandbox == a.view.sandbox || Overslept(b, a))
  }

  /** A wake of the forgetful life is one the other has too: for the same instant, or both due. */
  predicate Shared(c: Option<Claim>, d: Option<Claim>, now: Time) {
    c.Some? && d.Some? && d.value.wakeAt.At? ==>
      && c.value.wakeAt.At?
      && (c.value.wakeAt.seconds == d.value.wakeAt.seconds
          || (c.value.wakeAt.seconds * SECOND <= now && d.value.wakeAt.seconds * SECOND <= now))
  }

  /** The forgetful life's list resumes it no earlier than the other's does. */
  predicate NoEarlier(c: Option<Claim>, d: Option<Claim>, now: Time) {
    c.Some? && d.Some? && d.value.wakeAt.At? ==>
      && c.value.wakeAt.At?
      && (c.value.wakeAt.seconds <= d.value.wakeAt.seconds || c.value.wakeAt.seconds * SECOND <= now)
  }

  /** The session sleeps, and the forgetful life has a wake stored that the other does not share, or
      one listed that comes first. */
  predicate Apart(b: Life, a: Life, now: Time) {
    Sleeps(a.view.sandbox) && !(Shared(a.view.claim, b.view.claim, now) && NoEarlier(a.listed, b.listed, now))
  }

  // --- what a turn keeps ---

  predicate SendsSuspend(obs: seq<Obs>) {
    obs != [] && obs[|obs| - 1].SuspendSent?
  }

  /** Whether the suspend goes out is decided by the guards, the cron gate, and the stamp. */
  lemma IdleStepSendsIff(cfg: Settings, c: Claim, v: View, instances: map<string, Instance>, now: Time, k: Calls)
    requires c.connector
    ensures var facts := IdleFacts(cfg, c, v, instances, now, k);
      var gate := CronGate(cfg, c, facts.sandbox, now, k);
      var (u, obs) := IdleStep(cfg, c, v, Some(instances), now, k);
      && (SendsSuspend(obs) <==>
            DecideIdle(facts) && gate.Go? && (gate.wakeAt.Some? ==> Reply(k.stamp, v.claim).None?))
      && (!SendsSuspend(obs) ==> u.sandbox == v.sandbox)
      && (u.claim != v.claim ==> DecideIdle(facts))
  {
  }

  lemma IdleStepKeepsTheRest(cfg: Settings, c: Claim, v: View, instances: Option<map<string, Instance>>, now: Time,
                             k: Calls)
    ensures var u := IdleStep(cfg, c, v, instances, now, k).0;
      && u.registered == v.registered && u.bound == v.bound && Twins(u.claim, v.claim)
      && u.quiet == (if c.connector && instances.Some? && cfg.agentEnabled
                     then IdleFacts(cfg, c, v, instances.value, now, k).quietSince else v.quiet)
      && ((!c.connector || instances.None?) ==> IdleStep(cfg, c, v, instances, now, k) == (v, []))
  {
  }

  /** What an idle evaluation sees of a session, sandbox and clock aside, does not depend on the
      clock; a sleeping session shows nothing but that. */
  lemma FactsBehind(cfg: Settings, c: Claim, d: Claim, a: View, b: View, instances: map<string, Instance>, now: Time,
                    k: Calls)
    requires d == c.(wakeAt := d.wakeAt) && Later(b.quiet, a.quiet) && ClockBy(a, now) && ClockBy(b, now)
    requires b.sandbox == a.sandbox || Sleeps(b.sandbox)
    ensures var fa, fb := IdleFacts(cfg, c, a, instances, now, k), IdleFacts(cfg, d, b, instances, now, k);
      && Later(fb.quietSince, fa.quietSince)
      && (fa.quietSince.Some? ==> fa.quietSince.value <= now) && (fb.quietSince.Some? ==> fb.quietSince.value <= now)
      && (DecideIdle(fb) ==> DecideIdle(fa))
      && (b.sandbox == a.sandbox ==> fb.sandbox == fa.sandbox)
  {
    DecideIdleIffJustified(IdleFacts(cfg, c, a, instances, now, k));
    DecideIdleIffJustified(IdleFacts(cfg, d, b, instances, now, k));
  }

  lemma SleepersStay(cfg: Settings, c: Claim, v: View, instances: map<string, Instance>, now: Time, k: Calls)
    requires Sleeps(v.sandbox)
    ensures !DecideIdle(IdleFacts(cfg, c, v, instances, now, k))
  {
  }

  /** An idle step of the life behind sends nothing the other's does not, and until that one sends
      leaves both sandboxes alone, and the wake-ats of a sleeping session too. */
  lemma IdleStepBehind(cfg: Settings, c: Claim, d: Claim, a: View, b: View, instances: Option<map<string, Instance>>,
                       now: Time, k: Calls)
    requires d == c.(wakeAt := d.wakeAt) && Later(b.quiet, a.quiet) && ClockBy(a, now) && ClockBy(b, now)
    requires Twins(b.claim, a.claim) && (b.sandbox == a.sandbox || Sleeps(b.sandbox))
    ensures var (a', ao) := IdleStep(cfg, c, a, instances, now, k);
      var (b', bo) := IdleStep(cfg, d, b, instances, now, k);
      && ClockBy(a', now) && ClockBy(b', now) && Later(b'.quiet, a'.quiet) && Twins(b'.claim, a'.claim)
      && (SendsSuspend(bo) ==> SendsSuspend(ao))
      && (!SendsSuspend(ao) ==> a'.sandbox == a.sandbox && b'.sandbox == b.sandbox)
      && (Sleeps(a.sandbox) ==> a'.claim == a.claim) && (Sleeps(b.sandbox) ==> b'.claim == b.claim)
      && a'.registered == a.registered && a'.bound == a.bound && b'.registered == b.registered && b'.bound == b.bound
  {
    IdleStepKeepsTheRest(cfg, c, a, instances, now, k);
    IdleStepKeepsTheRest(cfg, d, b, instances, now, k);
    if c.connector && instances.Some? {
      IdleStepSendsIff(cfg, c, a, instances.value, now, k);
      IdleStepSendsIff(cfg, d, b, instances.value, now, k);
      FactsBehind(cfg, c, d, a, b, instances.value, now, k);
      if Sleeps(a.sandbox) {
        SleepersStay(cfg, c, a, instances.value, now, k);
      }
      if Sleeps(b.sandbox) {
        SleepersStay(cfg, d, b, instances.value, now, k);
      }
      hide IdleStep, IdleFacts, DecideIdle;
      var fa, fb := IdleFacts(cfg, c, a, instances.value, now, k), IdleFacts(cfg, d, b, instances.value, now, k);
      assert !Sleeps(b.sandbox) ==> CronGate(cfg, d, fb.sandbox, now, k) == CronGate(cfg, c, fa.sandbox, now, k);
    }
  }

  /** A wake resumes the session, or changes nothing. */
  lemma WakeCallIs(v: View, k: WakeCalls)
    ensures var u := WakeCall(v, k);
      && u == v.(claim := u.claim, sandbox := u.sandbox) && Cleared(u.claim, v.claim)
      && (if k.get.Delivered? && v.claim.Some? && k.patch.Applied() && v.sandbox.Some?
          then u.sandbox == Some(Settled(v.sandbox.value, Running, k.patchAt)) else u == v)
  {
  }

  /** The claim as it was, or without its wake-at. */
  predicate Cleared(after: Option<Claim>, before: Option<Claim>) {
    after == before || (before.Some? && after == Some(before.value.(wakeAt := Absent)))
  }

  predicate Due(c: Claim, v: View, now: Time, k: Calls) {
    c.wakeAt.At? && c.wakeAt.seconds * SECOND <= now && Sleeps(v.sandbox) && k.wakeRead.Delivered?
  }

  /** A sweep resumes a sleeping session whose listed wake is due, and otherwise clears at most a
      wake-at. */
  lemma WakeStepIs(c: Claim, v: View, now: Time, k: Calls)
    ensures var u := WakeStep(c, v, now, k);
      if Due(c, v, now, k) then u == WakeCall(v, k.wake)
      else u == v.(claim := u.claim) && Cleared(u.claim, v.claim)
           && (Sleeps(v.sandbox) && !c.wakeAt.Malformed? ==> u == v)
           && (Sleeps(v.sandbox) && c.wakeAt.Malformed? ==> u.claim == Stamped(v.claim, Absent, k.wakeClear))
  {
  }

  /** sweepWake on both lives, each on the claim it has listed. */
  lemma WakeStepBehind(a: Life, b: Life, n: Time, now: Time, k: Calls)
    requires Behind(b, a, n) && !Apart(b, a, n) && n <= now && a.listed.Some?
    ensures var a' := a.(view := WakeStep(a.listed.value, a.view, now, k), listed := None);
      var b' := b.(view := WakeStep(b.listed.value, b.view, now, k), listed := None);
      Behind(b', a', now) && !Apart(b', a', now)
  {
    WakeStepIs(a.listed.value, a.view, now, k);
    WakeStepIs(b.listed.value, b.view, now, k);
    WakeCallIs(a.view, k.wake);
    WakeCallIs(b.view, k.wake);
    hide WakeStep, WakeCall;
  }

  /** sweepTTL on both lives. */
  lemma TtlStepBehind(cfg: Settings, c: Claim, d: Claim, a: Life, b: Life, now: Time, k: Calls)
    requires d == c.(wakeAt := d.wakeAt) && Behind(b, a, now) && !Apart(b, a, now) && a.listed.None?
    ensures var ta, tb := TtlStep(cfg, c, a.view, now, k), TtlStep(cfg, d, b.view, now, k);
      var a', b' := a.(view := ta.view), b.(view := tb.view);
      Behind(b', a', now) && !Apart(b', a', now) && ta.obs == tb.obs
  {
    DecommissionBehind(cfg.connectorEnabled, a, b, k.ttl, now);
    hide Decommission;
  }

  lemma DecommissionBehind(enabled: bool, a: Life, b: Life, k: DecommissionCalls, now: Time)
    requires Behind(b, a, now)
    ensures var da, db := Decommission(enabled, a.view, k), Decommission(enabled, b.view, k);
      var a', b' := a.(view := da.view), b.(view := db.view);
      && Behind(b', a', now) && (!Apart(b, a, now) ==> !Apart(b', a', now))
      && da.deprovisioned == db.deprovisioned
  {
    DecommissionIs(enabled, a.view, k);
    DecommissionIs(enabled, b.view, k);
    hide Decommission;
  }

  lemma SendsLast(cfg: Settings, c: Claim, t: Stepped, instances: Option<map<string, Instance>>, now: Time, k: Calls)
    requires t.obs == [] || t.obs == [CacheCleared]
    ensures var (v, obs) := IdleStep(cfg, c, t.view, instances, now, k);
      Sends(Stepped(v, t.obs + obs, t.purged)) <==> SendsSuspend(obs)
  {
    var (v, obs) := IdleStep(cfg, c, t.view, instances, now, k);
    var all := t.obs + obs;
    if SendsSuspend(obs) {
      assert all[|all| - 1].SuspendSent?;
    } else {
      if c.connector && instances.Some? {
        IdleStepReports(cfg, c, t.view, instances.value, now, k);
      }
      assert forall i :: 0 <= i < |obs| ==> !obs[i].SuspendSent?;
    }
  }

  lemma IdleTurnBehind(cfg: Settings, c: Claim, d: Claim, a: Life, b: Life, instances: Option<map<string, Instance>>,
                       now: Time, k: Calls)
    requires d == c.(wakeAt := d.wakeAt) && Behind(b, a, now) && !Apart(b, a, now) && a.listed.None?
    ensures var (va, ao) := IdleStep(cfg, c, a.view, instances, now, k);
      var (vb, bo) := IdleStep(cfg, d, b.view, instances, now, k);
      && (SendsSuspend(bo) ==> SendsSuspend(ao))
      && (!SendsSuspend(ao) ==>
            Behind(b.(view := vb), a.(view := va), now) && !Apart(b.(view := vb), a.(view := va), now))
  {
    IdleStepBehind(cfg, c, d, a.view, b.view, instances, now, k);
    hide IdleStep;
  }

  /** A turn sends nothing to the life behind that the other's does not send, and until then leaves
      it behind. */
  lemma TurnBehind(cfg: Settings, a: Life, b: Life, instances: Option<map<string, Instance>>, n: Time, now: Time,
                   k: Calls)
    requires Behind(b, a, n) && !Apart(b, a, n) && n <= now && !a.suspended && !b.suspended
    ensures var a', b' := TurnOn(cfg, a, instances, now, k), TurnOn(cfg, b, instances, now, k);
      && (b'.suspended ==> a'.suspended)
      && (!a'.suspended ==> Behind(b', a', now) && !Apart(b', a', now))
  {
    if a.listed.Some? && !a.listed.value.terminating {
      var c, d := a.listed.value, b.listed.value;
      WakeStepBehind(a, b, n, now, k);
      var a1 := a.(view := WakeStep(c, a.view, now, k), listed := None);
      var b1 := b.(view := WakeStep(d, b.view, now, k), listed := None);
      hide WakeStep;
      TtlStepBehind(cfg, c, d, a1, b1, now, k);
      var ta, tb := TtlStep(cfg, c, a1.view, now, k), TtlStep(cfg, d, b1.view, now, k);
      assert ta.obs == [] || ta.obs == [CacheCleared];
      hide TtlStep;
      IdleTurnBehind(cfg, c, d, a1.(view := ta.view), b1.(view := tb.view), instances, now, k);
      SendsLast(cfg, c, ta, instances, now, k);
      SendsLast(cfg, d, tb, instances, now, k);
      hide IdleStep, Behind, Apart;
    }
  }

  /** Nothing else upsets the order of the two lives, but it may put them to sleep apart. */
  lemma OutsideBehind(cfg: Settings, a: Life, b: Life, m: Moment, now: Time)
    requires Behind(b, a, now) && !m.Turn?
    ensures Behind(LiveOn(cfg, b, m), LiveOn(cfg, a, m), now)
  {
    match m
    case Wakes(k) =>
      WakeCallIs(a.view, k);
      WakeCallIs(b.view, k);
      hide WakeCall;
    case Decommissions(k) => DecommissionBehind(cfg.connectorEnabled, a, b, k, now);
    case _ =>
  }

  /** Nothing but a turn ever leaves the two lives asleep with the forgetful one's wake its own. */
  ghost predicate NeverApart(cfg: Settings, la: Life, lb: Life, ms: seq<Moment>, a: nat -> bool, b: nat -> bool,
                             from: Time)
  {
    ms == []
    || (&& NeverApart(cfg, la, lb, ms[..|ms| - 1], a, b, from)
        && (ms[|ms| - 1].Turn? || Live(cfg, la, ms, a).suspended
            || !Apart(Live(cfg, lb, ms, b), Live(cfg, la, ms, a), LastTime(ms, from))))
  }

  lemma OrderedInit(ms: seq<Moment>, from: Time)
    requires ms != [] && Ordered(ms, from)
    ensures Ordered(ms[..|ms| - 1], from) && LastTime(ms[..|ms| - 1], from) <= LastTime(ms, from)
  {
    var init := ms[..|ms| - 1];
    forall i | 0 <= i < |init| && init[i].Turn?
      ensures LastTime(init[..i], from) <= init[i].now
    {
      assert init[..i] == ms[..i];
    }
  }

  lemma {:induction false} LivesStayOrdered(cfg: Settings, la: Life, lb: Life, ms: seq<Moment>, a: nat -> bool,
                                            b: nat -> bool,
                                            from: Time)
    requires Ordered(ms, from) && NeverApart(cfg, la, lb, ms, a, b, from)
    requires Behind(lb, la, from) && !Apart(lb, la, from) && !la.suspended && !lb.suspended
    requires forall i: nat :: a(i) ==> b(i)
    ensures var a', b' := Live(cfg, la, ms, a), Live(cfg, lb, ms, b);
      && (b'.suspended ==> a'.suspended)
      && (!a'.suspended ==> Behind(b', a', LastTime(ms, from)) && !Apart(b', a', LastTime(ms, from)))
  {
    hide SessionSweep, WakeCall, RestartCall, Decommission;
    if ms == [] {
    } else {
      var n := |ms| - 1;
      OrderedInit(ms, from);
      LivesStayOrdered(cfg, la, lb, ms[..n], a, b, from);
      var x := Forget(Live(cfg, la, ms[..n], a), a(n));
      var y := Forget(Live(cfg, lb, ms[..n], b), b(n));
      var t := LastTime(ms[..n], from);
      if !x.suspended {
        assert Behind(y, x, t) && !Apart(y, x, t);
        match ms[n]
        case Turn(instances, now, k) => TurnBehind(cfg, x, y, instances, t, now, k);
        case _ => OutsideBehind(cfg, x, y, ms[n], t);
      }
    }
  }

  /** On the same replies, operations and events, acting on each life's own objects, a
      lifecycle-manager that loses its clocks more often never suspends the session unless the
      other has already done so, in every run in which nothing puts the session to sleep while the
      forgetful life has a wake of its own. */
  lemma LosingMemoryOnlyDelays(cfg: Settings, v: View, ms: seq<Moment>, remembering: nat -> bool,
                               forgetful: nat -> bool, from: Time)
    requires Ordered(ms, from) && ClockBy(v, from)
    requires forall i: nat :: remembering(i) ==> forgetful(i)
    requires NeverApart(cfg, Life(v, None, false), Life(v, None, false), ms, remembering, forgetful, from)
    ensures var l := Life(v, None, false);
      && (Live(cfg, l, ms, forgetful).suspended ==> Live(cfg, l, ms, remembering).suspended)
      && (!Live(cfg, l, ms, remembering).suspended ==>
            Behind(Live(cfg, l, ms, forgetful), Live(cfg, l, ms, remembering), LastTime(ms, from)))
  {
    LivesStayOrdered(cfg, Life(v, None, false), Life(v, None, false), ms, remembering, forgetful, from);
  }
}
