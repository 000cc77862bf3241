/** One session under any interleaving of the sweeper with HTTP operations.

    Every call to Kubernetes or to the connector is one atomic step with its own outcome. Any
    number of wakes, restarts and decommissions may be in flight beside the sweeper, each
    stopped between any two of its calls. Decisions the sweeper takes on readings of its own
    are free choices here, except where they rest on the operating mode. */
module Interleaving {
  import opened Wrappers
  import opened GoTime
  import opened Network
  import opened Kube
  import opened Idle

  /** An operation in flight, named after the last call it has made. */
  datatype Proc =
    | WakeBegun | WakeRead(stamped: bool) | WakePatched
    | RestartBegun | RestartRead | RestartSuspended
    | DecommissionBegun | DecommissionRead | DecommissionPurged
    | Done

  /** Where the sweeper is in this session's turn. */
  datatype Phase =
    | Resting
    | Listing(wakeAt: WakeAt)
    | ClearDue
    | Calling(p: Proc)
    | TtlTurn
    | Purging(p: Proc)
    | IdleTurn
    | Stamping(due: Time)
    | Sending(fire: Option<Time>)

  datatype Entry = Entry(wakeAt: WakeAt, bound: bool)

  /** `owed` is the fire the sweeper knew of when its latest suspend took effect, until the
      session is set running again or its claim is gone. */
  datatype Session = Session(
    flagged: bool,
    claim: Option<Entry>,
    sandbox: Option<Mode>,
    registered: bool,
    procs: seq<Proc>,
    phase: Phase,
    owed: Option<Time>)

  datatype Action =
    | Begin(p: Proc)
    | Proceed(i: nat, net: Net)
    | SweepList
    | SweepCheck(net: Net, lagging: bool, due: bool)
    | SweepClear(net: Net)
    | SweepProceed(net: Net)
    | SweepTtl(expired: bool)
    | SweepDecide(net: Net, lagging: bool, verdict: Option<Option<Time>>)
    | SweepStamp(net: Net)
    | SweepSuspend(net: Net)
    | Provision

  datatype Rules = Rules(margin: int, connectorEnabled: bool)

  function WithWakeAt(s: Session, wakeAt: WakeAt, net: Net): Session {
    if net.Applied() && s.claim.Some? then s.(claim := Some(s.claim.value.(wakeAt := wakeAt))) else s
  }

  function SetRunning(s: Session, net: Net): Session {
    if net.Applied() && s.sandbox.Some? then s.(sandbox := Some(Running), owed := None) else s
  }

  function SetSuspended(s: Session, net: Net, owed: Option<Time>): Session {
    if net.Applied() && s.sandbox.Some? then
      s.(sandbox := Some(Suspended), owed := if s.claim.Some? && owed.Some? then owed else s.owed)
    else s
  }

  function DeleteClaim(s: Session, net: Net): Session {
    if net.Applied() && s.claim.Some? then
      s.(claim := None, sandbox := if s.claim.value.bound then None else s.sandbox, owed := None)
    else s
  }

  /** The next call of an operation, whoever runs it. */
  function Advance(r: Rules, s: Session, p: Proc, net: Net): (Session, Proc) {
    match p
    case WakeBegun =>
      (s, if net.Delivered? && s.claim.Some? then WakeRead(!s.claim.value.wakeAt.Absent?) else Done)
    case WakeRead(stamped) =>
      (SetRunning(s, net), if net.Delivered? && s.sandbox.Some? && stamped then WakePatched else Done)
    case WakePatched =>
      (WithWakeAt(s, Absent, net), Done)
    case RestartBegun =>
      (s, if net.Delivered? && s.claim.Some? then RestartRead else Done)
    case RestartRead =>
      (SetSuspended(s, net, None), RestartSuspended)
    case RestartSuspended =>
      (SetRunning(s, net), Done)
    case DecommissionBegun =>
      (s, if net.Delivered? && s.claim.Some? then DecommissionRead else Done)
    case DecommissionRead =>
      if s.flagged && r.connectorEnabled then
        (if net.Applied() then s.(registered := false) else s, if net.Delivered? then DecommissionPurged else Done)
      else
        (DeleteClaim(s, net), Done)
    case DecommissionPurged =>
      (DeleteClaim(s, net), Done)
    case Done =>
      (s, Done)
  }

  predicate Enabled(s: Session, a: Action) {
    match a
    case Begin(p) => p.WakeBegun? || p.RestartBegun? || p.DecommissionBegun?
    case Proceed(i, _) => i < |s.procs|
    case SweepList => s.phase.Resting? && s.claim.Some?
    case SweepCheck(_, _, _) => s.phase.Listing?
    case SweepClear(_) => s.phase.ClearDue?
    case SweepProceed(_) => s.phase.Calling? || s.phase.Purging?
    case SweepTtl(_) => s.phase.TtlTurn?
    case SweepDecide(_, _, _) => s.phase.IdleTurn?
    case SweepStamp(_) => s.phase.Stamping?
    case SweepSuspend(_) => s.phase.Sending?
    case Provision => true
  }

  /** A sandbox reading shows the session running unless the mode, or a condition that lags
      behind the mode, says otherwise. */
  predicate SeenRunning(s: Session, lagging: bool) {
    s.sandbox.Some? && !s.sandbox.value.Suspended? && !lagging
  }

  function Do(r: Rules, s: Session, a: Action): Session
    requires Enabled(s, a)
  {
    match a
    case Begin(p) => s.(procs := s.procs + [p])
    case Proceed(i, net) =>
      var (s', p') := Advance(r, s, s.procs[i], net);
      s'.(procs := s.procs[i := p'])
    case SweepList => s.(phase := Listing(s.claim.value.wakeAt))
    case SweepCheck(net, lagging, due) =>
      s.(phase := match s.phase.wakeAt
         case Absent => TtlTurn
         case Malformed => ClearDue
         case At(_) =>
           if !net.Delivered? || s.sandbox.None? then TtlTurn
           else if SeenRunning(s, lagging) then ClearDue
           else if due then Calling(WakeBegun)
           else TtlTurn)
    case SweepClear(net) => WithWakeAt(s, Absent, net).(phase := TtlTurn)
    case SweepProceed(net) =>
      var (s', p') := Advance(r, s, s.phase.p, net);
      s'.(phase := if s.phase.Calling? then (if p'.Done? then TtlTurn else Calling(p'))
                   else if p'.Done? then IdleTurn else Purging(p'))
    case SweepTtl(expired) => s.(phase := if expired then Purging(DecommissionBegun) else IdleTurn)
    case SweepDecide(net, lagging, verdict) =>
      s.(phase := if !net.Delivered? || !SeenRunning(s, lagging) || verdict.None? then Resting
                  else if verdict.value.None? then Sending(None)
                  else Stamping(verdict.value.value))
    case SweepStamp(net) =>
      var s' := WithWakeAt(s, FormatWakeAt(s.phase.due - r.margin), net);
      s'.(phase := if net.Delivered? && s.claim.Some? then Sending(Some(s.phase.due)) else Resting)
    case SweepSuspend(net) =>
      SetSuspended(s, net, s.phase.fire).(phase := Resting)
    case Provision => s.(registered := true)
  }

  ghost predicate Legal(r: Rules, s: Session, acts: seq<Action>)
    decreases acts
  {
    acts == [] || (Enabled(s, acts[0]) && Legal(r, Do(r, s, acts[0]), acts[1..]))
  }

  /** The session after a legal run. */
  function Run(r: Rules, s: Session, acts: seq<Action>): Session
    requires Legal(r, s, acts)
    decreases acts
  {
    if acts == [] then s else Run(r, Do(r, s, acts[0]), acts[1..])
  }

  /** `p` holds in every state of the run, the last included. */
  ghost predicate Throughout(r: Rules, s: Session, acts: seq<Action>, p: Session -> bool)
    requires Legal(r, s, acts)
    decreases acts
  {
    p(s) && (acts == [] || Throughout(r, Do(r, s, acts[0]), acts[1..], p))
  }

  /** Somebody, over HTTP or the sweeper itself, has just made call `p`. */
  predicate Underway(s: Session, p: Proc) {
    p in s.procs || s.phase == Calling(p) || s.phase == Purging(p)
  }

  /** Nothing in flight, the sweeper at rest, no fire owed. */
  predicate Fresh(s: Session) {
    s.procs == [] && s.phase.Resting? && s.owed.None?
  }

  /** Whoever makes it, a read that fails or finds nothing is followed by no call that rests on it,
      and changes nothing. */
  lemma FailedReadsLeadNowhere(r: Rules, s: Session, a: Action)
    requires Enabled(s, a)
    ensures a.SweepCheck? && (!a.net.Delivered? || s.sandbox.None?) ==>
      Do(r, s, a) == s.(phase := if s.phase.wakeAt.Malformed? then ClearDue else TtlTurn)
    ensures a.SweepDecide? && (!a.net.Delivered? || s.sandbox.None?) ==> Do(r, s, a) == s.(phase := Resting)
    ensures a.Proceed? && (!a.net.Delivered? || s.claim.None?)
            && s.procs[a.i] in {WakeBegun, RestartBegun, DecommissionBegun} ==>
      Do(r, s, a) == s.(procs := s.procs[a.i := Done])
  {
  }

  /** A wake that has read a claim without a wake-at clears none, whatever is stored by the time it
      has patched the sandbox. */
  lemma WakesClearWhatTheyRead(r: Rules, s: Session, later: Session, read: Net, patch: Net)
    requires s.claim.Some? ==> s.claim.value.wakeAt.Absent?
    ensures Advance(r, later, Advance(r, s, WakeBegun, read).1, patch).1 == Done
  {
  }

  /** A fire is owed from a suspend that takes effect until the session is set running again, its
      claim is gone, or a later suspend knows of another. */
  lemma OwedFromSuspendToResume(r: Rules, s: Session, a: Action)
    requires Enabled(s, a) && Do(r, s, a).owed != s.owed
    ensures var u := Do(r, s, a);
      if u.owed.Some? then a.SweepSuspend? && a.net.Applied() && u.owed == s.phase.fire && u.sandbox == Some(Suspended)
      else u.claim.None? || u.sandbox == Some(Running)
  {
    hide FormatWakeAt;
  }

  // --- no cron is lost ---

  /** Whoever is owed a fire is asleep with a wake stored that precedes the fire by the margin. */
  predicate CronKept(r: Rules, s: Session) {
    s.owed.Some? ==>
      && s.claim.Some? && s.sandbox == Some(Suspended)
      && s.claim.value.wakeAt.At? && s.claim.value.wakeAt.seconds * SECOND <= s.owed.value - r.margin
  }

  /** The session is asleep and nobody is about to erase its wake. */
  predicate CronSafe(r: Rules, s: Session) {
    && CronKept(r, s)
    && (s.owed.Some? ==>
      && !Underway(s, WakePatched) && !s.phase.ClearDue? && s.phase != Listing(Malformed)
      && !s.phase.Stamping? && !s.phase.Sending?)
  }

  /** The stamp a suspend relies on is stored, and no wake that has already set the session
      running still has its clear to make. */
  predicate Clean(r: Rules, s: Session) {
    s.phase.Sending? && s.phase.fire.Some? && s.claim.Some? && s.sandbox.Some? ==>
      && s.claim.value.wakeAt.At? && s.claim.value.wakeAt.seconds * SECOND <= s.phase.fire.value - r.margin
      && WakePatched !in s.procs
  }

  /** Every suspend of the run is sent from a clean state. */
  ghost predicate CleanSuspends(r: Rules, s: Session, acts: seq<Action>)
    requires Legal(r, s, acts)
    decreases acts
  {
    acts == [] || ((acts[0].SweepSuspend? ==> Clean(r, s)) && CleanSuspends(r, Do(r, s, acts[0]), acts[1..]))
  }

  lemma AdvanceIsCronSafe(r: Rules, s: Session, p: Proc, net: Net)
    requires CronKept(r, s) && (s.owed.Some? ==> p != WakePatched)
    ensures var (s', p') := Advance(r, s, p, net);
      && CronKept(r, s')
      && (s'.owed.Some? ==> s'.owed == s.owed && p' != WakePatched)
      && s'.procs == s.procs && s'.phase == s.phase && s'.flagged == s.flagged
  {
  }

  lemma StepIsCronSafe(r: Rules, s: Session, a: Action)
    requires CronSafe(r, s) && Enabled(s, a) && (a.SweepSuspend? ==> Clean(r, s))
    ensures CronSafe(r, Do(r, s, a))
  {
    match a
    case Proceed(i, net) =>
      AdvanceIsCronSafe(r, s, s.procs[i], net);
      var s' := Do(r, s, a);
      if s'.owed.Some? {
        forall j | 0 <= j < |s'.procs| ensures s'.procs[j] != WakePatched {
          assert j != i ==> s'.procs[j] == s.procs[j];
        }
      }
    case SweepProceed(net) => AdvanceIsCronSafe(r, s, s.phase.p, net);
    case _ =>
  }

  /** Whatever is in flight and whatever fails, a run whose suspends are clean never loses a
      fire: from the suspend until the session runs again or is gone, its wake stays stored. */
  lemma {:induction false} NoCronIsLost(r: Rules, s: Session, acts: seq<Action>)
    requires CronSafe(r, s) && Legal(r, s, acts) && CleanSuspends(r, s, acts)
    ensures Throughout(r, s, acts, x => CronKept(r, x))
    decreases acts
  {
    if acts == [] {
    } else {
      StepIsCronSafe(r, s, acts[0]);
      NoCronIsLost(r, Do(r, s, acts[0]), acts[1..]);
    }
  }

  /** From an unclean state the suspend goes wrong at once, or with one more step of the wake
      whose clear is pending. */
  lemma UncleanSuspendsLoseTheCron(r: Rules, s: Session)
    requires s.phase.Sending? && !Clean(r, s)
    ensures exists acts :: |acts| <= 2 && Legal(r, s, acts) && !CronKept(r, Run(r, s, acts))
  {
    var s1 := Do(r, s, SweepSuspend(Delivered));
    if WakePatched in s.procs && CronKept(r, s1) {
      var i :| 0 <= i < |s.procs| && s.procs[i] == WakePatched;
      var acts := Two(r, s, SweepSuspend(Delivered), Proceed(i, Delivered), []);
      assert |acts| == 2;
    } else {
      var acts := [SweepSuspend(Delivered)];
      assert acts[1..] == [];
      assert Run(r, s, acts) == s1;
    }
  }

  /** No wake is between its read and its end while the sweeper is between stamp and suspend,
      and the stamp is one RFC 3339 can spell. */
  predicate Undisturbed(r: Rules, s: Session) {
    s.phase.Sending? && s.phase.fire.Some? ==>
      && FormatWakeAt(s.phase.fire.value - r.margin).At?
      && forall p :: p in s.procs ==> !p.WakeRead? && !p.WakePatched?
  }

  /** The stamp is still there when the suspend is sent. */
  predicate StampHeld(r: Rules, s: Session) {
    s.phase.Sending? && s.phase.fire.Some? && s.claim.Some? ==>
      s.claim.value.wakeAt == FormatWakeAt(s.phase.fire.value - r.margin)
  }

  lemma HeldStampsAreClean(r: Rules, s: Session)
    requires StampHeld(r, s) && Undisturbed(r, s)
    ensures Clean(r, s)
  {
  }

  lemma StampsHold(r: Rules, s: Session, a: Action)
    requires StampHeld(r, s) && Undisturbed(r, s) && Enabled(s, a)
    ensures StampHeld(r, Do(r, s, a))
  {
    if a.Proceed? {
      assert s.procs[a.i] in s.procs;
    }
  }

  lemma {:induction false} UndisturbedSuspendsAreClean(r: Rules, s: Session, acts: seq<Action>)
    requires StampHeld(r, s) && Legal(r, s, acts) && Throughout(r, s, acts, x => Undisturbed(r, x))
    ensures CleanSuspends(r, s, acts)
    decreases acts
  {
    if acts == [] {
    } else {
      HeldStampsAreClean(r, s);
      StampsHold(r, s, acts[0]);
      UndisturbedSuspendsAreClean(r, Do(r, s, acts[0]), acts[1..]);
    }
  }

  /** No fire is lost in any run in which no wake overlaps a stamp-to-suspend window. */
  lemma NoOverlapNoLoss(r: Rules, s: Session, acts: seq<Action>)
    requires Fresh(s) && Legal(r, s, acts) && Throughout(r, s, acts, x => Undisturbed(r, x))
    ensures Throughout(r, s, acts, x => CronKept(r, x))
  {
    UndisturbedSuspendsAreClean(r, s, acts);
    NoCronIsLost(r, s, acts);
  }

  /** A session whose scheduled wake is due, with nothing in flight. */
  const DUE: Session := Session(true, Some(Entry(At(0), true)), Some(Suspended), true, [], Resting, None)

  /** A wake that has set the session running and is about to clear the old wake-at. */
  lemma WakeToItsPatch(r: Rules, rest: seq<Action>) returns (acts: seq<Action>)
    requires Legal(r, DUE.(sandbox := Some(Running), procs := [WakePatched]), rest)
    ensures Legal(r, DUE, acts)
    ensures Run(r, DUE, acts) == Run(r, DUE.(sandbox := Some(Running), procs := [WakePatched]), rest)
  {
    var begun := Do(r, DUE, Begin(WakeBegun));
    assert begun == DUE.(procs := [WakeBegun]);
    var read := Do(r, begun, Proceed(0, Delivered));
    assert read == DUE.(procs := [WakeRead(true)]);
    var patched := Do(r, read, Proceed(0, Delivered));
    assert patched == DUE.(sandbox := Some(Running), procs := [WakePatched]);
    acts := Three(r, DUE, Begin(WakeBegun), Proceed(0, Delivered), Proceed(0, Delivered), rest);
  }

  /** The sweeper from its list to its stamp. */
  lemma ListToStamp(r: Rules, s: Session, fire: Time, rest: seq<Action>) returns (acts: seq<Action>)
    requires s.phase.Resting? && s.claim.Some? && s.claim.value.wakeAt == At(0) && s.sandbox == Some(Running)
    requires var stamped := Entry(FormatWakeAt(fire - r.margin), s.claim.value.bound);
      Legal(r, s.(phase := Sending(Some(fire)), claim := Some(stamped)), rest)
    ensures var stamped := Entry(FormatWakeAt(fire - r.margin), s.claim.value.bound);
      Legal(r, s, acts) && Run(r, s, acts) == Run(r, s.(phase := Sending(Some(fire)), claim := Some(stamped)), rest)
  {
    hide Advance, FormatWakeAt;
    var turn := s.(phase := IdleTurn);
    acts := Two(r, turn, SweepDecide(Delivered, false, Some(Some(fire))), SweepStamp(Delivered), rest);
    acts := Three(r, s, SweepList, SweepCheck(Refused, false, false), SweepTtl(false), acts);
  }

  /** The overlap is real: a wake that has set the session running, still about to clear the old
      wake-at, erases the stamp of the suspend that comes in between, and the fire goes unserved. */
  lemma WakeCanEraseAFreshStamp(r: Rules, fire: Time)
    requires 0 <= r.margin <= fire && FormatWakeAt(fire - r.margin).At?
    ensures Fresh(DUE) && CronSafe(r, DUE)
    ensures exists acts ::
        && Legal(r, DUE, acts)
        && Run(r, DUE, acts).owed == Some(fire) && Run(r, DUE, acts).sandbox == Some(Suspended)
        && Run(r, DUE, acts).claim == Some(Entry(Absent, true))
  {
    var running := DUE.(sandbox := Some(Running), procs := [WakePatched]);
    var stamped := running.(phase := Sending(Some(fire)), claim := Some(Entry(FormatWakeAt(fire - r.margin), true)));
    var acts := Two(r, stamped, SweepSuspend(Delivered), Proceed(0, Delivered), []);
    acts := ListToStamp(r, running, fire, acts);
    acts := WakeToItsPatch(r, acts);
  }

  /** Two steps in front of a legal run. */
  lemma Two(r: Rules, s: Session, a: Action, b: Action, rest: seq<Action>) returns (acts: seq<Action>)
    requires Enabled(s, a) && Enabled(Do(r, s, a), b) && Legal(r, Do(r, Do(r, s, a), b), rest)
    ensures acts == [a, b] + rest && Legal(r, s, acts)
    ensures Run(r, s, acts) == Run(r, Do(r, Do(r, s, a), b), rest)
  {
    acts := [a, b] + rest;
    assert acts[1..] == [b] + rest && acts[1..][1..] == rest;
    assert Legal(r, Do(r, s, a), acts[1..]);
  }

  lemma Three(r: Rules, s: Session, a: Action, b: Action, c: Action, rest: seq<Action>) returns (acts: seq<Action>)
    requires Enabled(s, a) && Enabled(Do(r, s, a), b) && Enabled(Do(r, Do(r, s, a), b), c)
    requires Legal(r, Do(r, Do(r, Do(r, s, a), b), c), rest)
    ensures Legal(r, s, acts)
    ensures Run(r, s, acts) == Run(r, Do(r, Do(r, Do(r, s, a), b), c), rest)
  {
    var tail := Two(r, Do(r, s, a), b, c, rest);
    acts := [a] + tail;
    assert acts[1..] == tail;
  }

  // --- no instance is orphaned ---

  /** A gateway row whose claim is gone: a new decommission finds nothing to start from. */
  predicate Orphaned(s: Session) {
    s.claim.None? && s.registered
  }

  /** Once a decommission has purged, the row stays purged. */
  predicate PurgesHold(s: Session) {
    && !Orphaned(s)
    && (Underway(s, DecommissionPurged) ==> !s.registered)
  }

  /** The pod (re)provisions only under its claim, and not behind a purge. */
  predicate TimelyProvision(s: Session) {
    s.claim.Some? && !Underway(s, DecommissionPurged)
  }

  ghost predicate TimelyProvisions(r: Rules, s: Session, acts: seq<Action>)
    requires Legal(r, s, acts)
    decreases acts
  {
    acts == [] || ((acts[0].Provision? ==> TimelyProvision(s)) && TimelyProvisions(r, Do(r, s, acts[0]), acts[1..]))
  }

  lemma AdvanceHoldsPurges(r: Rules, s: Session, p: Proc, net: Net)
    requires r.connectorEnabled && s.flagged && PurgesHold(s) && Underway(s, p)
    ensures var (s', p') := Advance(r, s, p, net);
      && !Orphaned(s') && s'.flagged && s'.procs == s.procs && s'.phase == s.phase
      && (s'.registered ==> s.registered && p' != DecommissionPurged)
  {
  }

  lemma StepHoldsPurges(r: Rules, s: Session, a: Action)
    requires r.connectorEnabled && s.flagged
    requires PurgesHold(s) && Enabled(s, a) && (a.Provision? ==> TimelyProvision(s))
    ensures PurgesHold(Do(r, s, a)) && Do(r, s, a).flagged
  {
    hide Advance;
    if a.Proceed? {
      var s' := Do(r, s, a);
      assert s.procs[a.i] in s.procs;
      AdvanceHoldsPurges(r, s, s.procs[a.i], a.net);
      if DecommissionPurged in s'.procs {
        var j :| 0 <= j < |s'.procs| && s'.procs[j] == DecommissionPurged;
        assert j != a.i ==> s.procs[j] == DecommissionPurged;
      }
    } else if a.SweepProceed? {
      AdvanceHoldsPurges(r, s, s.phase.p, a.net);
    }
  }

  /** For any number of interleaved decommissions of a connector session, over HTTP and by the
      TTL sweeper, the claim never goes before its gateway row. */
  lemma {:induction false} NoInstanceIsOrphaned(r: Rules, s: Session, acts: seq<Action>)
    requires r.connectorEnabled && s.flagged && PurgesHold(s)
    requires Legal(r, s, acts) && TimelyProvisions(r, s, acts)
    ensures Throughout(r, s, acts, x => !Orphaned(x))
    decreases acts
  {
    if acts == [] {
    } else {
      StepHoldsPurges(r, s, acts[0]);
      NoInstanceIsOrphaned(r, Do(r, s, acts[0]), acts[1..]);
    }
  }

  /** The condition is exact: out of any other state a provision orphans its row, at once if the
      claim is gone, and otherwise with the next call of whichever decommission has purged, be it
      an operation's or the TTL sweeper's own. */
  lemma LateProvisionsOrphan(r: Rules, s: Session)
    requires r.connectorEnabled && s.flagged && PurgesHold(s) && !TimelyProvision(s)
    ensures exists acts: seq<Action> ::
      1 <= |acts| <= 2 && acts[0].Provision? && Legal(r, s, acts) && Orphaned(Run(r, s, acts))
  {
    var acts: seq<Action>;
    if s.claim.None? {
      acts := [Provision];
      assert acts[1..] == [];
    } else if DecommissionPurged in s.procs {
      var i :| 0 <= i < |s.procs| && s.procs[i] == DecommissionPurged;
      acts := Two(r, s, Provision, Proceed(i, Delivered), []);
      assert |acts| == 2;
    } else {
      acts := Two(r, s, Provision, SweepProceed(Delivered), []);
      assert |acts| == 2;
    }
    assert Orphaned(Run(r, s, acts));
  }

  /** This step is the purge of a decommission that reports a deprovisioning: it was answered, and
      it found the row. */
  predicate Deprovisions(r: Rules, s: Session, a: Action)
    requires Enabled(s, a)
  {
    && r.connectorEnabled && s.flagged && s.registered
    && match a
       case Proceed(i, net) => net.Delivered? && s.procs[i].DecommissionRead?
       case SweepProceed(net) => net.Delivered? && s.phase.p.DecommissionRead?
       case _ => false
  }

  /** How many decommissions of the run report a deprovisioning. */
  ghost function Deprovisionings(r: Rules, s: Session, acts: seq<Action>): nat
    requires Legal(r, s, acts)
    decreases acts
  {
    if acts == [] then 0
    else (if Deprovisions(r, s, acts[0]) then 1 else 0) + Deprovisionings(r, Do(r, s, acts[0]), acts[1..])
  }

  lemma RowsStayGone(r: Rules, s: Session, a: Action)
    requires Enabled(s, a) && !a.Provision?
    ensures Do(r, s, a).registered ==> s.registered
    ensures Deprovisions(r, s, a) ==> s.registered && !Do(r, s, a).registered
  {
  }

  /** With any number of decommissions in flight, at most one of them reports a deprovisioning,
      unless a pod provisions again. */
  lemma {:induction false} DeprovisionedOnce(r: Rules, s: Session, acts: seq<Action>)
    requires Legal(r, s, acts) && forall j :: 0 <= j < |acts| ==> !acts[j].Provision?
    ensures Deprovisionings(r, s, acts) <= (if s.registered then 1 else 0)
    decreases acts
  {
    if acts == [] {
    } else {
      RowsStayGone(r, s, acts[0]);
      DeprovisionedOnce(r, Do(r, s, acts[0]), acts[1..]);
    }
  }

  // --- a restart is two calls ---

  /** The session runs, or will once its pod is up. */
  predicate Up(s: Session) {
    s.sandbox.Some? && !s.sandbox.value.Suspended?
  }

  /** Nothing but the sweeper's own steps. */
  predicate OnlyTheSweeper(acts: seq<Action>) {
    forall j :: 0 <= j < |acts| ==> !acts[j].Begin? && !acts[j].Proceed? && !acts[j].Provision?
  }

  /** The session is down, no wake is stored that could ever be due, and the sweeper is not about
      to act on one it has read or means to write. */
  predicate Stranded(s: Session) {
    && !Up(s) && (s.claim.Some? ==> !s.claim.value.wakeAt.At?)
    && match s.phase
       case Listing(wakeAt) => !wakeAt.At?
       case Purging(p) => p.DecommissionBegun? || p.DecommissionRead? || p.DecommissionPurged?
       case Calling(_) => false
       case Stamping(_) => false
       case Sending(_) => false
       case _ => true
  }

  lemma SweepStepStrands(r: Rules, s: Session, a: Action)
    requires Stranded(s) && Enabled(s, a) && !a.Begin? && !a.Proceed? && !a.Provision?
    ensures Stranded(Do(r, s, a))
    ensures (s.claim.Some? ==> s.claim.value.wakeAt.Absent?) ==>
      (Do(r, s, a).claim.Some? ==> Do(r, s, a).claim.value.wakeAt.Absent?)
  {
  }

  /** The sweeper by itself never brings a stranded session up, nor stores a wake for it. */
  lemma {:induction false} SweepsLeaveItStranded(r: Rules, s: Session, acts: seq<Action>)
    requires Stranded(s) && Legal(r, s, acts) && OnlyTheSweeper(acts)
    ensures Throughout(r, s, acts, x => Stranded(x)) && Stranded(Run(r, s, acts))
    ensures (s.claim.Some? ==> s.claim.value.wakeAt.Absent?) ==>
      (Run(r, s, acts).claim.Some? ==> Run(r, s, acts).claim.value.wakeAt.Absent?)
    decreases acts
  {
    if acts == [] {
    } else {
      SweepStepStrands(r, s, acts[0]);
      SweepsLeaveItStranded(r, Do(r, s, acts[0]), acts[1..]);
    }
  }

  /** Some run of the sweeper by itself brings the session up. */
  ghost predicate SweeperCanResume(r: Rules, s: Session) {
    exists acts :: Legal(r, s, acts) && OnlyTheSweeper(acts) && Up(Run(r, s, acts))
  }

  /** With the sweeper at rest, a session that is down is one the sweeper can still bring up if and
      only if its claim carries a wake. */
  lemma SweeperResumesIff(r: Rules, s: Session)
    requires s.phase.Resting? && s.sandbox == Some(Suspended)
    ensures SweeperCanResume(r, s) <==> s.claim.Some? && s.claim.value.wakeAt.At?
  {
    if s.claim.Some? && s.claim.value.wakeAt.At? {
      var due := s.(phase := Calling(WakeBegun));
      var acts := Two(r, due, SweepProceed(Delivered), SweepProceed(Delivered), []);
      acts := Two(r, s, SweepList, SweepCheck(Delivered, false, true), acts);
    } else {
      forall acts | Legal(r, s, acts) && OnlyTheSweeper(acts)
        ensures !Up(Run(r, s, acts))
      {
        SweepsLeaveItStranded(r, s, acts);
      }
    }
  }

  /** A restart whose two calls run undisturbed on a session that is up leaves it down if and only
      if the first takes effect and the second does not. Without a stored wake, and with the
      sweeper at rest, no sweep will then ever bring it up again. */
  lemma RestartStrandsIff(r: Rules, s: Session, i: nat, suspend: Net, resume: Net)
    requires i < |s.procs| && s.procs[i] == RestartRead && Up(s)
    ensures var acts := [Proceed(i, suspend), Proceed(i, resume)];
      && Legal(r, s, acts)
      && Run(r, s, acts)
         == s.(sandbox := Run(r, s, acts).sandbox, owed := Run(r, s, acts).owed, procs := s.procs[i := Done])
      && (!Up(Run(r, s, acts)) <==> suspend.Applied() && !resume.Applied())
      && (s.phase.Resting? && s.claim.Some? && s.claim.value.wakeAt.Absent? ==>
           (!SweeperCanResume(r, Run(r, s, acts)) <==> suspend.Applied() && !resume.Applied()))
  {
    var acts := Two(r, s, Proceed(i, suspend), Proceed(i, resume), []);
    assert acts == [Proceed(i, suspend), Proceed(i, resume)];
    var u := Run(r, s, acts);
    if Up(u) {
      assert Legal(r, u, []) && OnlyTheSweeper([]) && Run(r, u, []) == u;
    } else if s.phase.Resting? {
      SweeperResumesIff(r, u);
    }
  }
}
