/** Where the order of a forgetful life and a remembering one is lost, and a run that loses it. */
module LostOrder {
  import opened Wrappers
  import opened GoTime
  import opened Network
  import opened Kube
  import opened Relay
  import opened Idle
  import opened SessionStep
  import opened Manager
  import opened MemoryLoss

  // --- the condition is exact ---

  /** What the sweeper and the pod do by themselves. */
  predicate OnlySweeps(ms: seq<Moment>) {
    forall i :: 0 <= i < |ms| ==> ms[i].Lists? || ms[i].Turn? || ms[i].Readies?
  }

  function Never(i: nat): bool {
    false
  }

  /** However the sweeper and the pod go on from here, without another loss of memory, the forgetful
      life is not suspended first. */
  ghost predicate OrderKept(cfg: Settings, la: Life, lb: Life, from: Time) {
    forall ms :: OnlySweeps(ms) && Ordered(ms, from) ==>
      (Live(cfg, lb, ms, Never).suspended ==> Live(cfg, la, ms, Never).suspended)
  }

  /** The sweeper may suspend a session with this claim and sandbox, once it is quiet for long
      enough. */
  predicate MaySuspend(cfg: Settings, c: Claim, sandbox: Option<Sandbox>) {
    && !c.terminating && c.connector && EffectiveIdleTimeout(cfg, c) > 0
    && (cfg.agentEnabled ==> StatusTarget(cfg, c, sandbox) != "")
  }

  predicate Suspendable(cfg: Settings, l: Life) {
    && l.view.claim.Some? && l.view.sandbox.Some? && MaySuspend(cfg, l.view.claim.value, l.view.sandbox)
    && (l.listed.Some? ==> !l.listed.value.terminating)
  }

  /** By themselves they never put the lives apart. */
  lemma {:induction false} SweepsStayTogether(cfg: Settings, la: Life, lb: Life, ms: seq<Moment>, from: Time)
    requires OnlySweeps(ms) && Ordered(ms, from)
    requires Behind(lb, la, from) && !Apart(lb, la, from) && !la.suspended && !lb.suspended
    ensures NeverApart(cfg, la, lb, ms, Never, Never, from)
  {
    hide SessionSweep;
    if ms == [] {
    } else {
      var init := ms[..|ms| - 1];
      OrderedInit(ms, from);
      SweepsStayTogether(cfg, la, lb, init, from);
      LivesStayOrdered(cfg, la, lb, init, Never, Never, from);
    }
  }

  /** Calls of a turn that can resume the session only if `wakeRead` says so, never destroys it, and
      finds its agent quiet and without crons. */
  function Calm(wakeRead: Net, patchAt: Time): Calls {
    Calls(wakeRead, Refused, WakeCalls(Delivered, Delivered, patchAt, Delivered),
          DecommissionCalls(Refused, Refused, Refused), Delivered, Some(Report(0, 0)), Schedule(None),
          Delivered, Delivered, patchAt)
  }

  /** An instance nobody has talked to for ages. */
  function Silent(name: string): map<string, Instance> {
    map[name := Instance(name, false, true, 0, Some(MIN_INT64), Some(MIN_INT64), false)]
  }

  /** A turn that does not resume and does not destroy is its idle step. */
  lemma CalmTurn(cfg: Settings, c: Claim, v: View, instances: Option<map<string, Instance>>, now: Time, p: Time)
    requires !c.terminating
    ensures var k := Calm(Refused, p);
      var (u, obs) := IdleStep(cfg, c, v, instances, now, k);
      SessionSweep(cfg, c, v, instances, now, k) == Stepped(u, obs, false)
  {
    var k := Calm(Refused, p);
    assert WakeStep(c, v, now, k) == v;
    assert TtlStep(cfg, c, v, now, k) == Stepped(v, [], false);
    hide IdleStep;
    var obs := IdleStep(cfg, c, v, instances, now, k).1;
    assert [] + obs == obs;
  }

  predicate NotReady(sandbox: Option<Sandbox>) {
    sandbox.Some? && (Sleeps(sandbox) || !sandbox.value.ready)
  }

  /** A session that is not ready is left as it is. */
  lemma UnreadyPolled(cfg: Settings, l: Life, instances: map<string, Instance>, now: Time)
    requires l.listed.Some? && !l.listed.value.terminating && l.listed.value.connector && NotReady(l.view.sandbox)
    ensures var u := TurnOn(cfg, l, Some(instances), now, Calm(Refused, now));
      u.suspended == l.suspended && u.view == l.view.(quiet := u.view.quiet)
  {
    var c, k := l.listed.value, Calm(Refused, now);
    CalmTurn(cfg, c, l.view, Some(instances), now, now);
    assert !DecideIdle(IdleFacts(cfg, c, l.view, instances, now, k));
    IdleStepSendsIff(cfg, c, l.view, instances, now, k);
    IdleStepKeepsTheRest(cfg, c, l.view, Some(instances), now, k);
    SendsLast(cfg, c, Stepped(l.view, [], false), Some(instances), now, k);
    var (u, obs) := IdleStep(cfg, c, l.view, Some(instances), now, k);
    hide IdleStep, IdleFacts, DecideIdle;
    assert [] + obs == obs;
  }

  predicate RunsReady(sandbox: Option<Sandbox>, since: Time) {
    sandbox.Some? && sandbox.value.mode.Running? && sandbox.value.ready && !sandbox.value.suspended
    && sandbox.value.readyChanged == Some(since)
  }

  /** One that is ready is suspended, or at least its clock is started; and it is suspended if both
      have lasted. */
  lemma ReadyPolled(cfg: Settings, l: Life, now: Time, since: Time)
    requires l.listed.Some? && l.view.claim == l.listed && Suspendable(cfg, l) && RunsReady(l.view.sandbox, since)
    requires ClockBy(l.view, now) && now >= 0
    ensures var c := l.listed.value;
      var u := TurnOn(cfg, l, Some(Silent(c.name)), now, Calm(Refused, now));
      var timeout := EffectiveIdleTimeout(cfg, c);
      && (u.suspended || u.view == l.view.(quiet := u.view.quiet))
      && (cfg.agentEnabled ==> u.view.quiet == if l.view.quiet.Some? then l.view.quiet else Some(now))
      && (since <= now - timeout && (cfg.agentEnabled ==> l.view.quiet.Some? && l.view.quiet.value <= now - timeout) ==>
            u.suspended)
  {
    var c, k := l.listed.value, Calm(Refused, now);
    var instances := Silent(c.name);
    CalmTurn(cfg, c, l.view, Some(instances), now, now);
    var facts := IdleFacts(cfg, c, l.view, instances, now, k);
    DecideIdleIffJustified(facts);
    IdleStepSendsIff(cfg, c, l.view, instances, now, k);
    IdleStepKeepsTheRest(cfg, c, l.view, Some(instances), now, k);
    SendsLast(cfg, c, Stepped(l.view, [], false), Some(instances), now, k);
    assert CronGate(cfg, c, facts.sandbox, now, k) == Go(None);
    assert facts.instance == Some(instances[c.name]);
    assert now - MIN_INT64 * SECOND >= MAX_INT64;
    var (u, obs) := IdleStep(cfg, c, l.view, Some(instances), now, k);
    hide IdleStep, DecideIdle;
    assert [] + obs == obs;
  }

  /** A turn without instance data resumes a sleeping session whose listed wake is due, and does no
      more. */
  lemma WakeTurn(cfg: Settings, l: Life, now: Time)
    requires l.listed.Some? && !l.listed.value.terminating && l.view.sandbox.Some?
    ensures var c := l.listed.value;
      var u := TurnOn(cfg, l, None, now, Calm(Delivered, now));
      && u.suspended == l.suspended && u.listed.None? && u.view.quiet == l.view.quiet
      && u.view == l.view.(claim := u.view.claim, sandbox := u.view.sandbox)
      && (if c.wakeAt.At? && c.wakeAt.seconds * SECOND <= now && Sleeps(l.view.sandbox) && l.view.claim.Some?
          then u.view.sandbox == Some(Settled(l.view.sandbox.value, Running, now))
               && u.view.claim == Some(l.view.claim.value.(wakeAt := Absent))
          else u.view == l.view)
  {
    var c, k := l.listed.value, Calm(Delivered, now);
    var w := WakeStep(c, l.view, now, k);
    assert TtlStep(cfg, c, w, now, k) == Stepped(w, [], false);
    assert IdleStep(cfg, c, w, None, now, k) == (w, []);
    hide TtlStep, IdleStep;
    var none: seq<Obs> := [];
    assert none + none == none;
  }

  /** One more moment. */
  lemma Extend(cfg: Settings, la: Life, lb: Life, ms: seq<Moment>, m: Moment, from: Time) returns (more: seq<Moment>)
    requires OnlySweeps(ms) && Ordered(ms, from) && (m.Lists? || m.Turn? || m.Readies?)
    requires m.Turn? ==> LastTime(ms, from) <= m.now
    ensures OnlySweeps(more) && Ordered(more, from)
    ensures LastTime(more, from) == if m.Turn? then m.now else LastTime(ms, from)
    ensures Live(cfg, la, more, Never) == LiveOn(cfg, Live(cfg, la, ms, Never), m)
    ensures Live(cfg, lb, more, Never) == LiveOn(cfg, Live(cfg, lb, ms, Never), m)
  {
    hide LiveOn;
    more := ms + [m];
    assert more[..|ms|] == ms;
    forall i | 0 <= i < |more| && more[i].Turn?
      ensures LastTime(more[..i], from) <= more[i].now
    {
      assert i < |ms| ==> more[..i] == ms[..i];
    }
  }

  /** Where the forgetful life runs and the other does not, two quiet polls suspend the forgetful
      one first. */
  lemma PolledApart(cfg: Settings, la: Life, lb: Life, ms: seq<Moment>, from: Time, since: Time)
    returns (more: seq<Moment>)
    requires OnlySweeps(ms) && Ordered(ms, from) && 0 <= LastTime(ms, from) && since <= LastTime(ms, from)
    requires var a, b := Live(cfg, la, ms, Never), Live(cfg, lb, ms, Never);
      && Twins(b.view.claim, a.view.claim) && NotReady(a.view.sandbox) && RunsReady(b.view.sandbox, since)
      && Suspendable(cfg, b) && ClockBy(b.view, LastTime(ms, from)) && !a.suspended
    ensures OnlySweeps(more) && Ordered(more, from)
    ensures Live(cfg, lb, more, Never).suspended && !Live(cfg, la, more, Never).suspended
  {
    var t, b := LastTime(ms, from), Live(cfg, lb, ms, Never);
    TimeoutIsPositive(cfg, b);
    hide SessionSweep, TurnOn, Suspendable, Live;
    more := PolledOnce(cfg, la, lb, ms, from, t, since);
    if !Live(cfg, lb, more, Never).suspended {
      more := PolledOnce(cfg, la, lb, more, from, t + EffectiveIdleTimeout(cfg, b.view.claim.value), since);
    }
  }

  lemma TimeoutIsPositive(cfg: Settings, l: Life)
    requires Suspendable(cfg, l)
    ensures l.view.claim.Some? && EffectiveIdleTimeout(cfg, l.view.claim.value) > 0
  {
  }

  /** A list and a turn. */
  lemma SweepOnce(cfg: Settings, la: Life, lb: Life, ms: seq<Moment>, from: Time, instances: map<string, Instance>,
                  now: Time)
    returns (more: seq<Moment>)
    requires OnlySweeps(ms) && Ordered(ms, from) && LastTime(ms, from) <= now
    ensures OnlySweeps(more) && Ordered(more, from) && LastTime(more, from) == now
    ensures var a, b, k := Live(cfg, la, ms, Never), Live(cfg, lb, ms, Never), Calm(Refused, now);
      && Live(cfg, la, more, Never) == TurnOn(cfg, a.(listed := a.view.claim), Some(instances), now, k)
      && Live(cfg, lb, more, Never) == TurnOn(cfg, b.(listed := b.view.claim), Some(instances), now, k)
  {
    hide Live, Ordered, OnlySweeps, LastTime, TurnOn, Calm;
    var listing := Extend(cfg, la, lb, ms, Lists, from);
    more := Extend(cfg, la, lb, listing, Turn(Some(instances), now, Calm(Refused, now)), from);
  }

  lemma PolledOnce(cfg: Settings, la: Life, lb: Life, ms: seq<Moment>, from: Time, now: Time, since: Time)
    returns (more: seq<Moment>)
    requires OnlySweeps(ms) && Ordered(ms, from) && 0 <= now && LastTime(ms, from) <= now
    requires var a, b := Live(cfg, la, ms, Never), Live(cfg, lb, ms, Never);
      && Twins(b.view.claim, a.view.claim) && NotReady(a.view.sandbox) && RunsReady(b.view.sandbox, since)
      && Suspendable(cfg, b) && ClockBy(b.view, now) && !a.suspended
    ensures OnlySweeps(more) && Ordered(more, from) && LastTime(more, from) == now
    ensures var a, b := Live(cfg, la, ms, Never), Live(cfg, lb, ms, Never);
      var a', b' := Live(cfg, la, more, Never), Live(cfg, lb, more, Never);
      var timeout := EffectiveIdleTimeout(cfg, b.view.claim.value);
      && !a'.suspended && a'.view == a.view.(quiet := a'.view.quiet)
      && (b'.suspended || (b'.view == b.view.(quiet := b'.view.quiet) && Suspendable(cfg, b')))
      && (cfg.agentEnabled ==> b'.view.quiet == if b.view.quiet.Some? then b.view.quiet else Some(now))
      && (!cfg.agentEnabled && !b'.suspended ==> b'.view == b.view)
      && (since <= now - timeout && (cfg.agentEnabled ==> b.view.quiet.Some? && b.view.quiet.value <= now - timeout) ==>
            b'.suspended)
  {
    var a, b := Live(cfg, la, ms, Never), Live(cfg, lb, ms, Never);
    var instances := Silent(b.view.claim.value.name);
    more := SweepOnce(cfg, la, lb, ms, from, instances, now);
    hide Live, Ordered, OnlySweeps, LastTime;
    UnreadyPolled(cfg, a.(listed := a.view.claim), instances, now);
    ReadyPolled(cfg, b.(listed := b.view.claim), now, since);
    hide TurnOn;
  }

  /** The forgetful life's listed wake is due and the other's is not. */
  lemma ResumedAlone(cfg: Settings, la: Life, lb: Life, ms: seq<Moment>, from: Time, now: Time)
    returns (more: seq<Moment>)
    requires OnlySweeps(ms) && Ordered(ms, from) && 0 <= now && LastTime(ms, from) <= now
    requires var a, b := Live(cfg, la, ms, Never), Live(cfg, lb, ms, Never);
      && Suspendable(cfg, b) && ClockBy(b.view, now) && !a.suspended
      && Twins(b.view.claim, a.view.claim) && Twins(b.listed, a.listed) && b.listed.Some?
      && Sleeps(b.view.sandbox) && NotReady(a.view.sandbox)
      && b.listed.value.wakeAt.At? && b.listed.value.wakeAt.seconds * SECOND <= now
      && (Sleeps(a.view.sandbox) && a.listed.value.wakeAt.At? ==> a.listed.value.wakeAt.seconds * SECOND > now)
    ensures OnlySweeps(more) && Ordered(more, from)
    ensures Live(cfg, lb, more, Never).suspended && !Live(cfg, la, more, Never).suspended
  {
    var a, b := Live(cfg, la, ms, Never), Live(cfg, lb, ms, Never);
    var next := Extend(cfg, la, lb, ms, Turn(None, now, Calm(Delivered, now)), from);
    hide Live, Ordered;
    WakeTurn(cfg, a, now);
    WakeTurn(cfg, b, now);
    hide TurnOn;
    more := PolledApart(cfg, la, lb, next, from, now);
  }

  /** A turn in which every call fails closes the list and does no more. */
  lemma EmptyTurn(cfg: Settings, l: Life, now: Time)
    requires l.listed.Some? && !l.listed.value.terminating
    ensures TurnOn(cfg, l, None, now, Calm(Refused, now)) == l.(listed := None)
  {
    CalmTurn(cfg, l.listed.value, l.view, None, now, now);
    assert IdleStep(cfg, l.listed.value, l.view, None, now, Calm(Refused, now)) == (l.view, []);
  }

  /** The other's wake comes first, and its pod does not get ready before the forgetful life's
      wake comes too. */
  lemma ResumedFirst(cfg: Settings, la: Life, lb: Life, ms: seq<Moment>, from: Time, now: Time, later: Time)
    returns (more: seq<Moment>)
    requires OnlySweeps(ms) && Ordered(ms, from) && 0 <= now < later && LastTime(ms, from) <= now
    requires var a, b := Live(cfg, la, ms, Never), Live(cfg, lb, ms, Never);
      && Suspendable(cfg, b) && ClockBy(b.view, now) && !a.suspended
      && Twins(b.view.claim, a.view.claim) && a.listed == a.view.claim && b.listed == b.view.claim
      && Sleeps(a.view.sandbox) && b.view.sandbox == a.view.sandbox
      && a.view.claim.value.wakeAt.At? && a.view.claim.value.wakeAt.seconds * SECOND <= now
      && b.view.claim.value.wakeAt.At? && b.view.claim.value.wakeAt.seconds * SECOND == later
    ensures OnlySweeps(more) && Ordered(more, from)
    ensures Live(cfg, lb, more, Never).suspended && !Live(cfg, la, more, Never).suspended
  {
    var a, b := Live(cfg, la, ms, Never), Live(cfg, lb, ms, Never);
    var next := Extend(cfg, la, lb, ms, Turn(None, now, Calm(Delivered, now)), from);
    next := Extend(cfg, la, lb, next, Readies(false, now), from);
    next := Extend(cfg, la, lb, next, Lists, from);
    hide Live, Ordered;
    WakeTurn(cfg, a, now);
    WakeTurn(cfg, b, now);
    hide TurnOn;
    more := ResumedAlone(cfg, la, lb, next, from, later);
  }

  /** Once the lives are apart, the sweeper and the pod by themselves can make the forgetful one the
      first to be suspended. */
  lemma ApartIsLost(cfg: Settings, la: Life, lb: Life, from: Time) returns (more: seq<Moment>)
    requires Behind(lb, la, from) && Apart(lb, la, from) && !la.suspended && !lb.suspended
    requires Suspendable(cfg, lb) && from >= 0
    ensures OnlySweeps(more) && Ordered(more, from)
    ensures Live(cfg, lb, more, Never).suspended && !Live(cfg, la, more, Never).suspended
  {
    if !NoEarlier(la.listed, lb.listed, from) {
      var x := lb.listed.value.wakeAt.seconds * SECOND;
      more := ResumedAlone(cfg, la, lb, [], from, if x > from then x else from);
    } else {
      var ms: seq<Moment> := [];
      if la.listed.Some? {
        ms := Extend(cfg, la, lb, ms, Turn(None, from, Calm(Refused, from)), from);
        EmptyTurn(cfg, la, from);
        EmptyTurn(cfg, lb, from);
      }
      assert Live(cfg, la, ms, Never) == la.(listed := None) && Live(cfg, lb, ms, Never) == lb.(listed := None);
      ms := Extend(cfg, la, lb, ms, Lists, from);
      hide Live, Ordered, TurnOn;
      more := StoredApartIsLost(cfg, la, lb, ms, from);
    }
  }

  lemma StoredApartIsLost(cfg: Settings, la: Life, lb: Life, ms: seq<Moment>, from: Time) returns (more: seq<Moment>)
    requires OnlySweeps(ms) && Ordered(ms, from) && LastTime(ms, from) == from >= 0
    requires var a, b := Live(cfg, la, ms, Never), Live(cfg, lb, ms, Never);
      && Behind(b, a, from) && !a.suspended && Suspendable(cfg, b)
      && a.listed == a.view.claim && b.listed == b.view.claim
      && Sleeps(a.view.sandbox) && !Shared(a.view.claim, b.view.claim, from)
    ensures OnlySweeps(more) && Ordered(more, from)
    ensures Live(cfg, lb, more, Never).suspended && !Live(cfg, la, more, Never).suspended
  {
    var a, b := Live(cfg, la, ms, Never), Live(cfg, lb, ms, Never);
    hide Live, Ordered;
    var x, w := b.view.claim.value.wakeAt.seconds * SECOND, a.view.claim.value.wakeAt;
    if w.At? && w.seconds * SECOND < x {
      var y := w.seconds * SECOND;
      more := ResumedFirst(cfg, la, lb, ms, from, if y > from then y else from, x);
    } else {
      more := ResumedAlone(cfg, la, lb, ms, from, if x > from then x else from);
    }
  }

  /** From a state in which the forgetful life is behind, the order is kept for ever if and only if
      the lives are not apart. */
  lemma OrderKeptIff(cfg: Settings, la: Life, lb: Life, from: Time)
    requires Behind(lb, la, from) && !la.suspended && !lb.suspended
    requires Suspendable(cfg, lb) && from >= 0
    ensures OrderKept(cfg, la, lb, from) <==> !Apart(lb, la, from)
  {
    if Apart(lb, la, from) {
      var ms := ApartIsLost(cfg, la, lb, from);
    } else {
      forall ms | OnlySweeps(ms) && Ordered(ms, from)
        ensures Live(cfg, lb, ms, Never).suspended ==> Live(cfg, la, ms, Never).suspended
      {
        SweepsStayTogether(cfg, la, lb, ms, from);
        LivesStayOrdered(cfg, la, lb, ms, Never, Never, from);
      }
    }
  }

  // --- a run that loses the order ---

  /** Polling and crons on, ten seconds of idleness, no margin. */
  const POLLING: Settings := Settings(0, 10 * SECOND, 5 * SECOND, 0, true, true, true, true)

  const CLAIM: Claim := Claim("s", Some(0), false, "s", "", "", "", true, Absent)

  /** A session that has been ready and quiet since the clock began. */
  const QUIET: Life :=
    Life(View(Some(CLAIM), Some(Sandbox(Running, true, Some(0), false, "")), None, {}, Some(0)), None, false)

  /** Calls that find the agent quiet and the next cron at `fire`, where the clear fails and the
      stamp takes effect although its answer is lost. */
  function LostStamp(fire: Time): Calls {
    Calm(Delivered, 0).(cron := Schedule(Some(fire)), stamp := Lost)
  }

  function StampTurn(now: Time, fire: Time): Moment {
    Turn(Some(Silent("s")), now, LostStamp(fire))
  }

  /** A turn that comes to a suspend whose stamp's answer is lost leaves the stamp and no more. */
  lemma StampLost(l: Life, now: Time, fire: Time)
    requires l.listed == l.view.claim && l.view.sandbox == QUIET.view.sandbox && l.view.quiet == Some(0) && !l.suspended
    requires l.view.claim.Some? && l.view.claim.value == CLAIM.(wakeAt := l.view.claim.value.wakeAt)
    requires 10 * SECOND <= now && now + 5 * SECOND < fire <= 2000 * SECOND && fire % SECOND == 0
    ensures TurnOn(POLLING, l, Some(Silent("s")), now, LostStamp(fire))
         == l.(view := l.view.(claim := Some(CLAIM.(wakeAt := At(fire / SECOND)))), listed := None)
  {
    var c, k := l.listed.value, LostStamp(fire);
    assert WakeStep(c, l.view, now, k) == l.view;
    assert TtlStep(POLLING, c, l.view, now, k) == Stepped(l.view, [], false);
    var facts := IdleFacts(POLLING, c, l.view, Silent("s"), now, k);
    DecideIdleIffJustified(facts);
    assert now - MIN_INT64 * SECOND >= MAX_INT64;
    assert DecideIdle(facts);
    assert CronGate(POLLING, c, facts.sandbox, now, k) == Go(Some(fire));
    assert FormatWakeAt(fire) == At(fire / SECOND);
    hide WakeStep, TtlStep, DecideIdle, CronGate, FormatWakeAt;
    var obs := IdleStep(POLLING, c, l.view, Some(Silent("s")), now, k).1;
    assert obs == [Polled("s", facts.report, now)];
    assert [] + obs == obs;
  }

  /** A turn just after the clocks were lost starts the clock and no more. */
  lemma ClockStarts(l: Life, now: Time, fire: Time)
    requires l.listed == l.view.claim && l.view.sandbox == QUIET.view.sandbox && l.view.quiet == None && !l.suspended
    requires l.view.claim.Some? && l.view.claim.value == CLAIM.(wakeAt := l.view.claim.value.wakeAt)
    ensures TurnOn(POLLING, l, Some(Silent("s")), now, LostStamp(fire))
         == l.(view := l.view.(quiet := Some(now)), listed := None)
  {
    var c, k := l.listed.value, LostStamp(fire);
    assert WakeStep(c, l.view, now, k) == l.view;
    assert TtlStep(POLLING, c, l.view, now, k) == Stepped(l.view, [], false);
    var facts := IdleFacts(POLLING, c, l.view, Silent("s"), now, k);
    assert facts.quietSince == Some(now);
    assert !DecideIdle(facts);
    hide WakeStep, TtlStep, DecideIdle, CronGate;
    var obs := IdleStep(POLLING, c, l.view, Some(Silent("s")), now, k).1;
    assert obs == [Polled("s", facts.report, now)];
    assert [] + obs == obs;
  }

  /** Two sweeps, and a restart whose second half fails. */
  function FirstSweep(): seq<Moment> {
    [Lists] + [StampTurn(100 * SECOND, 200 * SECOND)]
  }

  function TwoSweeps(): seq<Moment> {
    FirstSweep() + [Lists] + [StampTurn(110 * SECOND, 1000 * SECOND)]
  }

  function LosingRun(): seq<Moment> {
    TwoSweeps() + [Moment.Restarts(RestartCalls(Delivered, Delivered, 0, Refused, 0))]
  }

  /** The clocks are lost once, before the second sweep gives the session its turn. */
  function InTheSecondSweep(i: nat): bool {
    i == 3
  }

  function WithWake(l: Life, seconds: int): Life {
    l.(view := l.view.(claim := Some(CLAIM.(wakeAt := At(seconds)))))
  }

  lemma OneMore(cfg: Settings, l: Life, ms: seq<Moment>, m: Moment, loses: nat -> bool)
    ensures Live(cfg, l, ms + [m], loses) == LiveOn(cfg, Forget(Live(cfg, l, ms, loses), loses(|ms|)), m)
  {
    hide LiveOn;
    assert (ms + [m])[..|ms|] == ms;
  }

  /** One more sweep that lists the session and gives it its turn. */
  lemma OneMoreSweep(l: Life, ms: seq<Moment>, now: Time, fire: Time, loses: nat -> bool)
    requires !loses(|ms|)
    ensures var x := Live(POLLING, l, ms, loses);
      Live(POLLING, l, ms + [Lists] + [StampTurn(now, fire)], loses)
        == TurnOn(POLLING, Forget(x.(listed := x.view.claim), loses(|ms| + 1)), Some(Silent("s")), now, LostStamp(fire))
  {
    hide TurnOn, LostStamp;
    OneMore(POLLING, l, ms, Lists, loses);
    OneMore(POLLING, l, ms + [Lists], StampTurn(now, fire), loses);
  }

  lemma AfterFirstSweep(loses: nat -> bool)
    requires !loses(0) && !loses(1)
    ensures Live(POLLING, QUIET, FirstSweep(), loses) == WithWake(QUIET, 200)
  {
    var none: seq<Moment> := [];
    assert none + [Lists] == [Lists];
    assert Live(POLLING, QUIET, none, loses) == QUIET;
    hide TurnOn, LostStamp, Live;
    OneMoreSweep(QUIET, none, 100 * SECOND, 200 * SECOND, loses);
    StampLost(QUIET.(listed := Some(CLAIM)), 100 * SECOND, 200 * SECOND);
  }

  lemma AfterTwoSweeps(loses: nat -> bool)
    requires !loses(0) && !loses(1) && !loses(2)
    ensures Live(POLLING, QUIET, TwoSweeps(), loses)
         == if loses(3) then WithWake(QUIET.(view := QUIET.view.(quiet := Some(110 * SECOND))), 200)
            else WithWake(QUIET, 1000)
  {
    hide TurnOn, LostStamp, Live;
    AfterFirstSweep(loses);
    OneMoreSweep(QUIET, FirstSweep(), 110 * SECOND, 1000 * SECOND, loses);
    var l := WithWake(QUIET, 200);
    var listed := l.(listed := l.view.claim);
    StampLost(listed, 110 * SECOND, 1000 * SECOND);
    ClockStarts(Forget(listed, true), 110 * SECOND, 1000 * SECOND);
  }

  /** The remembering life is left asleep with a wake at 1000 s, the forgetful one with one at 200 s. */
  lemma LosingRunEndsApart()
    ensures var a, b := Live(POLLING, QUIET, LosingRun(), Never), Live(POLLING, QUIET, LosingRun(), InTheSecondSweep);
      && Behind(b, a, 110 * SECOND) && Apart(b, a, 110 * SECOND) && Suspendable(POLLING, b)
      && !a.suspended && !b.suspended
  {
    hide TurnOn, WakeCall, Decommission;
    var restart := Moment.Restarts(RestartCalls(Delivered, Delivered, 0, Refused, 0));
    AfterTwoSweeps(Never);
    AfterTwoSweeps(InTheSecondSweep);
    OneMore(POLLING, QUIET, TwoSweeps(), restart, Never);
    OneMore(POLLING, QUIET, TwoSweeps(), restart, InTheSecondSweep);
    hide Live;
  }

  /** Its sweeps read the clock at 100 s and 110 s. */
  lemma LosingRunIsOrdered()
    ensures Ordered(LosingRun(), 0) && LastTime(LosingRun(), 0) == 110 * SECOND
  {
    var ms := LosingRun();
    assert ms[..0] == [] && ms[..5] == ms;
    forall n: nat | n < 5
      ensures LastTime(ms[..n + 1], 0) == if ms[n].Turn? then ms[n].now else LastTime(ms[..n], 0)
    {
      assert ms[..n + 1][..n] == ms[..n];
    }
    hide LastTime;
    assert LastTime(ms[..1], 0) == LastTime(ms[..0], 0);
    assert LastTime(ms[..3], 0) == LastTime(ms[..2], 0) == 100 * SECOND;
    assert LastTime(ms[..5], 0) == LastTime(ms[..4], 0) == 110 * SECOND;
  }

  lemma {:induction false} LiveJoins(cfg: Settings, l: Life, ms: seq<Moment>, more: seq<Moment>, loses: nat -> bool)
    requires forall i: nat :: i >= |ms| ==> !loses(i)
    ensures Live(cfg, l, ms + more, loses) == Live(cfg, Live(cfg, l, ms, loses), more, Never)
  {
    hide LiveOn;
    if more == [] {
      assert ms + more == ms;
    } else {
      var n := |more| - 1;
      assert (ms + more)[..|ms| + n] == ms + more[..n];
      LiveJoins(cfg, l, ms, more[..n], loses);
    }
  }

  lemma {:induction false} LastTimeJoins(ms: seq<Moment>, more: seq<Moment>, from: Time)
    ensures LastTime(ms + more, from) == LastTime(more, LastTime(ms, from))
    decreases |more|
  {
    if more == [] {
      assert ms + more == ms;
    } else {
      var n := |more| - 1;
      assert (ms + more)[..|ms| + n] == ms + more[..n];
      LastTimeJoins(ms, more[..n], from);
    }
  }

  lemma OrderedJoins(ms: seq<Moment>, more: seq<Moment>, from: Time)
    requires Ordered(ms, from) && Ordered(more, LastTime(ms, from))
    ensures Ordered(ms + more, from)
  {
    var all := ms + more;
    forall i | 0 <= i < |all| && all[i].Turn?
      ensures LastTime(all[..i], from) <= all[i].now
    {
      if i < |ms| {
        assert all[..i] == ms[..i];
      } else {
        assert all[..i] == ms + more[..i - |ms|];
        LastTimeJoins(ms, more[..i - |ms|], from);
      }
    }
  }

  /** Without the condition the order can be lost: two lives that start alike, one loss of memory,
      and the forgetful one is suspended while the other never was. */
  lemma RestartCanLoseTheOrder() returns (ms: seq<Moment>)
    ensures Ordered(ms, 0)
    ensures Live(POLLING, QUIET, ms, InTheSecondSweep).suspended && !Live(POLLING, QUIET, ms, Never).suspended
  {
    ms := LosingRun();
    LosingRunEndsApart();
    LosingRunIsOrdered();
    hide Live, Suspendable, Behind, Apart, LastTime, Ordered, LosingRun;
    var a, b := Live(POLLING, QUIET, ms, Never), Live(POLLING, QUIET, ms, InTheSecondSweep);
    var more := ApartIsLost(POLLING, a, b, 110 * SECOND);
    LosingRunHasFive();
    LiveJoins(POLLING, QUIET, ms, more, Never);
    LiveJoins(POLLING, QUIET, ms, more, InTheSecondSweep);
    OrderedJoins(ms, more, 0);
    ms := ms + more;
  }

  lemma LosingRunHasFive()
    ensures |LosingRun()| == 5
  {
  }
}
