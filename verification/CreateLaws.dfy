/** When a failed create leaves nothing behind, and what a successful one leaves. */
module CreateLaws {
  import opened Wrappers
  import opened GoTime
  import opened Network
  import opened Decimal
  import opened Kube
  import opened Relay
  import opened SessionStep
  import opened Fleet
  import opened SweepLaws
  import opened Manager

  /** The id is not empty and has no gateway row, no routes and no sandbox. */
  ghost predicate Unclaimed(w: World, id: string) {
    id != "" && id !in w.registered && id !in w.sandboxes && Bound(w.routes, id) == {}
  }

  /** The i-th bind was made, all before it having been answered, and it took effect. */
  predicate TookEffect(nets: nat -> Net, i: nat) {
    nets(i).Applied() && forall j: nat :: j < i ==> nets(j).Delivered?
  }

  /** Some bind that took effect was for this chat. */
  predicate Hit(d: Defaults, chats: seq<Chat>, nets: nat -> Net, chat: Chat) {
    exists i :: 0 <= i < |chats| && TookEffect(nets, i) && ChatFor(d, chats[i]) == chat
  }

  /** Binding is exactly the binds that took effect, and goes through when all are answered. */
  lemma {:induction false} BindAllBinds(d: Defaults, routes: map<Chat, string>, id: string, chats: seq<Chat>,
                                        nets: nat -> Net)
    ensures var (m, ok) := BindAll(d, routes, id, chats, nets);
      && (forall chat :: Lookup(m, chat) == if Hit(d, chats, nets, chat) then Some(id) else Lookup(routes, chat))
      && (ok <==> forall j: nat :: j < |chats| ==> nets(j).Delivered?)
  {
    if chats == [] {
    } else {
      var n := |chats| - 1;
      BindAllBinds(d, routes, id, chats[..n], nets);
      var (m, ok) := BindAll(d, routes, id, chats, nets);
      forall chat ensures Lookup(m, chat) == if Hit(d, chats, nets, chat) then Some(id) else Lookup(routes, chat) {
        HitOneMore(d, chats, nets, chat);
      }
    }
  }

  lemma HitOneMore(d: Defaults, chats: seq<Chat>, nets: nat -> Net, chat: Chat)
    requires chats != []
    ensures var n := |chats| - 1;
      Hit(d, chats, nets, chat) <==>
        Hit(d, chats[..n], nets, chat) || (TookEffect(nets, n) && ChatFor(d, chats[n]) == chat)
  {
    var n := |chats| - 1;
    if i :| 0 <= i < n && TookEffect(nets, i) && ChatFor(d, chats[..n][i]) == chat {
      assert ChatFor(d, chats[i]) == chat;
    }
    if i :| 0 <= i < |chats| && TookEffect(nets, i) && ChatFor(d, chats[i]) == chat && i < n {
      assert ChatFor(d, chats[..n][i]) == chat;
    }
  }

  /** Some bind that took effect took its chat over from another gateway. */
  ghost predicate TakesOver(d: Defaults, routes: map<Chat, string>, chats: seq<Chat>, nets: nat -> Net) {
    exists chat :: chat in routes && Hit(d, chats, nets, chat)
  }

  /** Purging gives back the routes there were before the binds if and only if none of them took
      a chat over. */
  lemma PurgeUndoesBindingIff(d: Defaults, routes: map<Chat, string>, id: string, chats: seq<Chat>, nets: nat -> Net)
    requires Bound(routes, id) == {}
    ensures KeepBound(BindAll(d, routes, id, chats, nets).0, id, {}) == routes <==> !TakesOver(d, routes, chats, nets)
  {
    BindAllBinds(d, routes, id, chats, nets);
    var m := BindAll(d, routes, id, chats, nets).0;
    var back := KeepBound(m, id, {});
    hide BindAll, Hit;
    forall chat
      ensures chat in back <==> chat in routes && !Hit(d, chats, nets, chat)
      ensures chat in back ==> back[chat] == routes[chat]
    {
      assert Lookup(m, chat) == if Hit(d, chats, nets, chat) then Some(id) else Lookup(routes, chat);
      assert chat in routes ==> chat !in Bound(routes, id);
    }
    if TakesOver(d, routes, chats, nets) {
      var chat :| chat in routes && Hit(d, chats, nets, chat);
      assert chat !in back;
    }
  }

  /** The claim is on record although its creation reported an error. */
  predicate LostCreation(w: World, id: string, k: CreateCalls) {
    k.create.Lost? && id !in w.claims
  }

  /** The rollback got through: the claim is deleted, so is whatever was provisioned, and no chat
      had been taken over. */
  ghost predicate RollbackLanded(d: Defaults, w: World, req: CreateRequest, k: CreateCalls) {
    k.delete.Applied() && ConnectorRestored(d, w, req, k)
  }

  ghost predicate ConnectorRestored(d: Defaults, w: World, req: CreateRequest, k: CreateCalls) {
    !k.provision.Applied()
    || (k.purge.Applied() && (k.provision.Delivered? ==> !TakesOver(d, w.routes, req.routes, k.setRoute)))
  }

  /** Nothing was left behind: the claim's creation was not the call whose answer got lost, the
      rollback landed if it came to one, and it was not just the final read that failed. */
  ghost predicate LeavesNothing(d: Defaults, w: World, req: CreateRequest, outcome: Outcome, k: CreateCalls) {
    match outcome
    case Rejected(err) => !(err == Unreachable && LostCreation(w, IdFor(req, k), k))
    case RolledBack => RollbackLanded(d, w, req, k)
    case Made => false
  }

  /** For an id that is fresh or taken, a create that reports a failure leaves cluster and connector
      exactly as they were if and only if it leaves nothing behind in that sense. A taken id is
      always refused, and nothing is touched. When only the final read fails, the whole session
      stays although its caller is told of an error. */
  lemma FailedCreateRestoresIff(cfg: Settings, d: Defaults, bind: bool, w: World, req: CreateRequest, k: CreateCalls)
    requires IdFor(req, k) in w.claims || Unclaimed(w, IdFor(req, k))
    ensures var (u, outcome) := CreateSpec(d, cfg.connectorEnabled, bind, w, req, k);
      && (CreateAnswer(cfg, u, IdFor(req, k), outcome, k).Err? ==> (u == w <==> LeavesNothing(d, w, req, outcome, k)))
      && (outcome.Made? ==> (CreateAnswer(cfg, u, IdFor(req, k), outcome, k).Err? <==> !k.get.get.Delivered?))
      && (outcome.Rejected? ==> CreateAnswer(cfg, u, IdFor(req, k), outcome, k) == Err(outcome.err))
      && (outcome.RolledBack? ==> CreateAnswer(cfg, u, IdFor(req, k), outcome, k) == Err(Unreachable))
      && (IdFor(req, k) in w.claims ==> outcome.Rejected? && u == w)
  {
    hide BindAll, KeepBound, Bound, ChatFor, NewRegistration, Coalesce, TakesOver, Viewed;
    var id := IdFor(req, k);
    var (u, outcome) := CreateSpec(d, cfg.connectorEnabled, bind, w, req, k);
    if outcome.RolledBack? {
      hide ProvisionSpec;
      var w1 := w.(claims := ClaimsAfterCreate(w.claims, NewClaim(id, req), k.createdAt, bind, k.create),
                   sandboxes := SandboxesAfterCreate(w.claims, w.sandboxes, NewClaim(id, req), k.createdAt, bind,
                                                     k.create));
      RollbackRestoresIff(d, w1, id, req, k);
      assert u.claims == w.claims <==> k.delete.Applied();
      assert k.delete.Applied() ==> u.sandboxes == w.sandboxes by {
        assert w1.claims[id].sandboxName == (if bind then id else "");
        assert w1.sandboxes - {id} == w.sandboxes - {id} == w.sandboxes;
      }
    } else if outcome.Rejected? && outcome.err == Unreachable && LostCreation(w, id, k) {
      assert id in u.claims;
    } else if outcome.Made? {
      MadeMakesTheClaim(d, cfg.connectorEnabled, bind, w, req, k);
    }
  }

  lemma MadeMakesTheClaim(d: Defaults, enabled: bool, bind: bool, w: World, req: CreateRequest, k: CreateCalls)
    requires CreateSpec(d, enabled, bind, w, req, k).1.Made?
    ensures var u := CreateSpec(d, enabled, bind, w, req, k).0;
      && u.claims == ClaimsAfterCreate(w.claims, NewClaim(IdFor(req, k), req), k.createdAt, bind, k.create)
      && IdFor(req, k) !in w.claims && IdFor(req, k) in u.claims
  {
    hide BindAll, KeepBound, ChatFor, NewRegistration, Coalesce;
  }

  /** The connector's half of the rollback, whatever chats were asked for. */
  lemma RollbackRestoresIff(d: Defaults, w: World, id: string, req: CreateRequest, k: CreateCalls)
    requires id !in w.registered && Bound(w.routes, id) == {}
    ensures var (u, outcome) := ProvisionSpec(d, w, id, req, k);
      outcome.RolledBack? ==>
        && ((u.registered == w.registered && u.routes == w.routes) <==> ConnectorRestored(d, w, req, k))
        && (id in u.registered <==> k.provision.Applied() && !k.purge.Applied())
        && u.claims == (if k.delete.Applied() then w.claims - {id} else w.claims)
        && u.sandboxes == (if k.delete.Applied() && id in w.claims && w.claims[id].sandboxName != ""
                           then w.sandboxes - {w.claims[id].sandboxName} else w.sandboxes)
        && u.quiet == w.quiet
  {
    hide BindAll, KeepBound, Bound, ChatFor, NewRegistration, Coalesce, TakesOver;
    PurgeUndoesBindingIff(d, w.routes, id, req.routes, k.setRoute);
    var w1 := ProvisionIn(w, d, id, req, k.provision);
    assert k.provision.Applied() ==> w1.registered - {id} == w.registered;
    assert w.registered - {id} == w.registered;
    KeepNothing(w.routes, id);
  }

  lemma KeepNothing(routes: map<Chat, string>, id: string)
    requires Bound(routes, id) == {}
    ensures KeepBound(routes, id, {}) == routes
  {
  }

  /** "No half-session survives" has one exception: a rollback whose purge fails while its delete
      gets through leaves a gateway row that no claim stands for. */
  lemma RollbackOrphansIff(d: Defaults, enabled: bool, bind: bool, w: World, req: CreateRequest, k: CreateCalls)
    requires Unclaimed(w, IdFor(req, k))
    ensures var (u, outcome) := CreateSpec(d, enabled, bind, w, req, k);
      var id := IdFor(req, k);
      outcome.RolledBack? ==>
        ((id !in u.claims && id in u.registered) <==>
           (k.delete.Applied() && k.provision.Applied() && !k.purge.Applied()))
  {
  }

  /** The text of a requested knob; none is stored when none is requested. */
  predicate SpellsKnob(text: string, seconds: Option<Int64>) {
    match seconds
    case None => text == ""
    case Some(n) => text == FormatInt(n)
  }

  /** The claim as requested, the default sandbox bound to it if one is bound at once. */
  predicate ClaimAsRequested(c: Claim, id: string, bind: bool, req: CreateRequest, at: Time) {
    && c.name == id && c.createdAt == Some(at) && !c.terminating && c.wakeAt.Absent?
    && SpellsKnob(c.ttlSeconds, req.ttlSeconds) && SpellsKnob(c.idleTimeoutSeconds, req.idleTimeoutSeconds)
    && c.displayName == req.displayName
    && c.connector == (req.connector || req.routes != [])
    && c.sandboxName == (if bind then id else "")
  }

  /** The gateway row as requested; of a row that was there already, a display name and route keys
      survive a request that has none. */
  predicate RowAsRequested(row: Registration, d: Defaults, id: string, req: CreateRequest,
                           before: Option<Registration>)
  {
    && row.platform == d.platform && row.botId == d.botId && row.wakeUrl == d.wakeBaseUrl + "/wake/" + id
    && row.displayName == (if req.displayName == "" && before.Some? then before.value.displayName
                           else req.displayName)
    && (if req.routes == [] && before.Some? then row.routeKeys == before.value.routeKeys
        else |row.routeKeys| == |req.routes|
             && forall i :: 0 <= i < |req.routes| ==> row.routeKeys[i] == req.routes[i].chatId)
  }

  /** The i-th requested chat, under its own platform or the default one. */
  function RequestedChat(d: Defaults, req: CreateRequest, i: nat): Chat
    requires i < |req.routes|
  {
    Chat(if req.routes[i].platform != "" then req.routes[i].platform else d.platform, req.routes[i].chatId)
  }

  /** Success leaves the claim and its gateway row as requested, every requested chat bound, and
      everything else as it was. */
  lemma CreateLeavesTheSession(d: Defaults, enabled: bool, bind: bool, w: World, req: CreateRequest, k: CreateCalls)
    requires CreateSpec(d, enabled, bind, w, req, k).1.Made?
    ensures var u := CreateSpec(d, enabled, bind, w, req, k).0;
      var id := if req.id == "" then k.newId else req.id;
      && id !in w.claims && id in u.claims && ClaimAsRequested(u.claims[id], id, bind, req, k.createdAt)
      && (forall n :: n != id ==> Lookup(u.claims, n) == Lookup(w.claims, n))
      && (forall n :: n != id ==> Lookup(u.sandboxes, n) == Lookup(w.sandboxes, n))
      && (if bind then Lookup(u.sandboxes, id) == Some(Sandbox(Running, true, Some(k.createdAt), false, ""))
          else u.sandboxes == w.sandboxes)
      && u.quiet == w.quiet
      && (req.connector || req.routes != [] ==>
            && id in u.registered && RowAsRequested(u.registered[id], d, id, req, Lookup(w.registered, id))
            && (forall n :: n != id ==> Lookup(u.registered, n) == Lookup(w.registered, n))
            && (forall i :: 0 <= i < |req.routes| ==> Lookup(u.routes, RequestedChat(d, req, i)) == Some(id))
            && (forall chat :: Lookup(u.routes, chat) == Lookup(w.routes, chat)
                  || exists i :: 0 <= i < |req.routes| && RequestedChat(d, req, i) == chat))
      && (!req.connector && req.routes == [] ==> u.registered == w.registered && u.routes == w.routes)
  {
    var id := IdFor(req, k);
    MadeWrites(d, enabled, bind, w, req, k);
    MadeMakesTheClaim(d, enabled, bind, w, req, k);
    RequestedChatsAreBound(d, w.routes, id, req, k.setRoute);
    ProvisionedRow(d, id, req, Lookup(w.registered, id));
    hide CreateSpec, BindAll, RowAsRequested, Coalesce, NewRegistration, RequestedChat;
  }

  lemma MadeWrites(d: Defaults, enabled: bool, bind: bool, w: World, req: CreateRequest, k: CreateCalls)
    requires CreateSpec(d, enabled, bind, w, req, k).1.Made?
    ensures var u := CreateSpec(d, enabled, bind, w, req, k).0;
      var id := IdFor(req, k);
      && u.sandboxes == SandboxesAfterCreate(w.claims, w.sandboxes, NewClaim(id, req), k.createdAt, bind, k.create)
      && k.create.Delivered? && u.quiet == w.quiet
      && (if UsesConnector(req) then
            && u.registered == w.registered[id := Coalesce(Lookup(w.registered, id), NewRegistration(d, id, req))]
            && (u.routes, true) == BindAll(d, w.routes, id, req.routes, k.setRoute)
          else u.registered == w.registered && u.routes == w.routes)
  {
    hide BindAll, KeepBound, Coalesce, NewRegistration, ClaimsAfterCreate, SandboxesAfterCreate;
  }

  lemma RequestedChatsAreBound(d: Defaults, routes: map<Chat, string>, id: string, req: CreateRequest,
                               nets: nat -> Net)
    requires BindAll(d, routes, id, req.routes, nets).1
    ensures var m := BindAll(d, routes, id, req.routes, nets).0;
      && (forall i :: 0 <= i < |req.routes| ==> Lookup(m, RequestedChat(d, req, i)) == Some(id))
      && (forall chat :: Lookup(m, chat) == Lookup(routes, chat)
            || exists i :: 0 <= i < |req.routes| && RequestedChat(d, req, i) == chat)
  {
    BindAllBinds(d, routes, id, req.routes, nets);
    assert forall i :: 0 <= i < |req.routes| ==> RequestedChat(d, req, i) == ChatFor(d, req.routes[i]);
    hide BindAll, ChatFor, RequestedChat;
  }

  lemma ProvisionedRow(d: Defaults, id: string, req: CreateRequest, before: Option<Registration>)
    ensures RowAsRequested(Coalesce(before, NewRegistration(d, id, req)), d, id, req, before)
  {
    assert |"/wake/"| > 0;
  }

  predicate IsAlnum(c: char) {
    'a' <= c <= 'z' || '0' <= c <= '9'
  }

  /** `[a-z0-9]([a-z0-9-]{0,50}[a-z0-9])?` */
  ghost predicate MatchesIdPattern(id: string) {
    id != "" && IsAlnum(id[0])
    && (|id| == 1
        || exists middle: string, last :: id == [id[0]] + middle + [last] && IsMiddle(middle) && IsAlnum(last))
  }

  predicate IsMiddle(middle: string) {
    |middle| <= 50 && forall i :: 0 <= i < |middle| ==> IsAlnum(middle[i]) || middle[i] == '-'
  }

  /** The position-wise test accepts exactly what the pattern matches. */
  lemma ValidIdIff(id: string)
    ensures ValidId(id) <==> MatchesIdPattern(id)
  {
    if ValidId(id) && |id| > 1 {
      assert id == [id[0]] + id[1..|id| - 1] + [id[|id| - 1]];
      assert IsMiddle(id[1..|id| - 1]);
    }
    if MatchesIdPattern(id) && |id| > 1 {
      var middle: string, last :| id == [id[0]] + middle + [last] && IsMiddle(middle) && IsAlnum(last);
      assert forall i :: 0 < i < |id| - 1 ==> id[i] == middle[i - 1];
    }
  }

  /** Which of its six ends a create comes to is decided by the request and by which calls are
      answered. */
  lemma CreateEndsAs(d: Defaults, enabled: bool, bind: bool, w: World, req: CreateRequest, k: CreateCalls)
    ensures var outcome := CreateSpec(d, enabled, bind, w, req, k).1;
      var id := if req.id == "" then k.newId else req.id;
      var uses := req.connector || req.routes != [];
      var named := req.id == "" || MatchesIdPattern(req.id);
      var answered := k.provision.Delivered? && forall j: nat :: j < |req.routes| ==> k.setRoute(j).Delivered?;
      var asked := named && (uses ==> enabled);
      var claimed := asked && k.create.Delivered? && id !in w.claims;
      && (outcome == Rejected(InvalidId) <==> !named)
      && (outcome == Rejected(Disabled) <==> named && uses && !enabled)
      && (outcome == Rejected(AlreadyExists) <==> asked && k.create.Delivered? && id in w.claims)
      && (outcome == Rejected(Unreachable) <==> asked && !k.create.Delivered?)
      && (outcome.RolledBack? <==> claimed && uses && !answered)
      && (outcome.Made? <==> claimed && (uses ==> answered))
  {
    hide MatchesIdPattern, ValidId;
    ValidIdIff(req.id);
    var id := IdFor(req, k);
    var w1 := w.(claims := ClaimsAfterCreate(w.claims, NewClaim(id, req), k.createdAt, bind, k.create),
                 sandboxes := SandboxesAfterCreate(w.claims, w.sandboxes, NewClaim(id, req), k.createdAt, bind,
                                                   k.create));
    BindAllBinds(d, w1.routes, id, req.routes, k.setRoute);
    hide BindAll;
  }

  /** A chat bound elsewhere is taken over by its bind and not given back by the rollback: behind a
      purge that took effect the routes come back if and only if no bind that took effect hit a
      taken chat, and without one if and only if none took effect at all. */
  lemma RollbackKeepsTheRoutesIff(d: Defaults, w: World, id: string, req: CreateRequest, k: CreateCalls)
    requires id !in w.registered && Bound(w.routes, id) == {}
    ensures var (u, outcome) := ProvisionSpec(d, w, id, req, k);
      outcome.RolledBack? ==>
        (u.routes == w.routes <==>
          (k.provision.Delivered? ==> forall i :: 0 <= i < |req.routes| && TookEffect(k.setRoute, i) ==>
            k.purge.Applied() && ChatFor(d, req.routes[i]) !in w.routes))
  {
    hide BindAll, KeepBound, Bound, ChatFor, SandboxesAfterDelete, NewRegistration, Coalesce, TookEffect;
    PurgeUndoesBindingIff(d, w.routes, id, req.routes, k.setRoute);
    KeepNothing(w.routes, id);
    if k.provision.Delivered? && !k.purge.Applied() {
      BindsChangeTheRoutes(d, w.routes, id, req.routes, k.setRoute);
    }
    if i :| 0 <= i < |req.routes| && TookEffect(k.setRoute, i) && ChatFor(d, req.routes[i]) in w.routes {
      assert Hit(d, req.routes, k.setRoute, ChatFor(d, req.routes[i]));
    }
  }

  lemma BindsChangeTheRoutes(d: Defaults, routes: map<Chat, string>, id: string, chats: seq<Chat>, nets: nat -> Net)
    requires Bound(routes, id) == {}
    ensures BindAll(d, routes, id, chats, nets).0 == routes <==> forall i :: 0 <= i < |chats| ==> !TookEffect(nets, i)
  {
    BindAllBinds(d, routes, id, chats, nets);
    var m := BindAll(d, routes, id, chats, nets).0;
    if i :| 0 <= i < |chats| && TookEffect(nets, i) {
      var chat := ChatFor(d, chats[i]);
      assert Hit(d, chats, nets, chat);
      assert Lookup(m, chat) == Some(id);
      assert chat in routes ==> chat !in Bound(routes, id);
    } else {
      forall chat ensures Lookup(m, chat) == Lookup(routes, chat) {
        assert !Hit(d, chats, nets, chat);
      }
      SameMap(m, routes);
    }
  }
}
