/** The whole system, the part of it one session owns, and the sweep as a fold over sessions. */
module Fleet {
  import opened Wrappers
  import opened GoTime
  import opened Network
  import opened Kube
  import opened Relay
  import opened SessionStep

  datatype World = World(
    claims: map<string, Claim>,
    sandboxes: map<string, Sandbox>,
    registered: map<string, Registration>,
    routes: map<Chat, string>,
    quiet: map<string, Time>)

  /** The two keys a session is stored under. */
  datatype Slot = Slot(name: string, sandbox: string)

  function SlotOf(c: Claim): Slot {
    Slot(c.name, c.Resolve())
  }

  function PartOf(w: World, s: Slot): View {
    View(Lookup(w.claims, s.name), Lookup(w.sandboxes, s.sandbox), Lookup(w.registered, s.name),
         Bound(w.routes, s.name), Lookup(w.quiet, s.name))
  }

  /** A session step can unbind chats but never binds one. */
  function Put(w: World, s: Slot, v: View): World {
    World(Store(w.claims, s.name, v.claim), Store(w.sandboxes, s.sandbox, v.sandbox),
          Store(w.registered, s.name, v.registered), KeepBound(w.routes, s.name, v.bound),
          Store(w.quiet, s.name, v.quiet))
  }

  lemma PutGet(w: World, s: Slot)
    ensures Put(w, s, PartOf(w, s)) == w
  {
  }

  lemma GetPut(w: World, s: Slot, v: View)
    requires v.bound <= PartOf(w, s).bound
    ensures PartOf(Put(w, s, v), s) == v
  {
  }

  lemma StoreStore<K, V>(m: map<K, V>, k: K, a: Option<V>, b: Option<V>)
    ensures Store(Store(m, k, a), k, b) == Store(m, k, b)
  {
  }

  lemma KeepKeep(routes: map<Chat, string>, id: string, more: set<Chat>, fewer: set<Chat>)
    requires fewer <= more
    ensures KeepBound(KeepBound(routes, id, more), id, fewer) == KeepBound(routes, id, fewer)
  {
  }

  lemma PutPut(w: World, s: Slot, v: View, u: View)
    requires u.bound <= v.bound <= PartOf(w, s).bound
    ensures Put(Put(w, s, v), s, u) == Put(w, s, u)
  {
    StoreStore(w.claims, s.name, v.claim, u.claim);
    StoreStore(w.sandboxes, s.sandbox, v.sandbox, u.sandbox);
    StoreStore(w.registered, s.name, v.registered, u.registered);
    KeepKeep(w.routes, s.name, v.bound, u.bound);
    StoreStore(w.quiet, s.name, v.quiet, u.quiet);
  }

  /** Writing one part of a session's view back is writing one key of the world. */
  lemma PutClaim(w: World, s: Slot, claim: Option<Claim>)
    ensures Put(w, s, PartOf(w, s).(claim := claim)) == w.(claims := Store(w.claims, s.name, claim))
  {
  }

  lemma PutSandbox(w: World, s: Slot, sandbox: Option<Sandbox>)
    ensures Put(w, s, PartOf(w, s).(sandbox := sandbox)) == w.(sandboxes := Store(w.sandboxes, s.sandbox, sandbox))
  {
  }

  lemma PutClaimAndSandbox(w: World, s: Slot, claim: Option<Claim>, sandbox: Option<Sandbox>)
    ensures Put(w, s, PartOf(w, s).(claim := claim, sandbox := sandbox))
         == w.(claims := Store(w.claims, s.name, claim), sandboxes := Store(w.sandboxes, s.sandbox, sandbox))
  {
  }

  lemma PutQuiet(w: World, s: Slot, quiet: Option<Time>)
    ensures Put(w, s, PartOf(w, s).(quiet := quiet)) == w.(quiet := Store(w.quiet, s.name, quiet))
  {
  }

  lemma PutPurged(w: World, s: Slot)
    ensures Put(w, s, PartOf(w, s).(registered := None, bound := {}))
         == w.(registered := w.registered - {s.name}, routes := KeepBound(w.routes, s.name, {}))
  {
  }

  ghost predicate Apart(s: Slot, t: Slot) {
    s.name != t.name && s.sandbox != t.sandbox
  }

  lemma GetPutApart(w: World, s: Slot, t: Slot, v: View)
    requires Apart(s, t)
    ensures PartOf(Put(w, s, v), t) == PartOf(w, t)
  {
  }

  /** A session step only ever drops chats. */
  lemma SessionSweepUnbinds(cfg: Settings, c: Claim, v: View, instances: Option<map<string, Instance>>, now: Time,
                            k: Calls)
    ensures SessionSweep(cfg, c, v, instances, now, k).view.bound <= v.bound
  {
  }

  /** The instance cache, and when its readout was taken. */
  datatype Cached = Cached(byId: map<string, Instance>, at: Time)

  /** The lifecycle-manager and everything it acts on; `log` is the history so far. */
  datatype System = System(world: World, cached: Option<Cached>, log: seq<Obs>)

  const INSTANCE_CACHE_TTL: Duration := 5 * SECOND

  /** One use of Manager.Instances: when the cache is looked at, what the connector would
      answer (None is an error), and when that answer is in. */
  datatype Consult = Consult(checkAt: Time, reply: Option<seq<Instance>>, replyAt: Time)

  predicate Hit(cached: Option<Cached>, q: Consult) {
    cached.Some? && Sub(q.checkAt, cached.value.at) < INSTANCE_CACHE_TTL
  }

  function Instances(enabled: bool, cached: Option<Cached>, q: Consult): Option<map<string, Instance>> {
    if !enabled then None
    else if Hit(cached, q) then Some(cached.value.byId)
    else if q.reply.None? then None
    else Some(IndexById(q.reply.value))
  }

  function CachedAfter(enabled: bool, cached: Option<Cached>, q: Consult): Option<Cached> {
    if !enabled || Hit(cached, q) || q.reply.None? then cached
    else Some(Cached(IndexById(q.reply.value), q.replyAt))
  }

  function ConsultObs(enabled: bool, cached: Option<Cached>, q: Consult): seq<Obs> {
    if !enabled || Hit(cached, q) || q.reply.None? then [] else [Listed(q.reply.value, q.replyAt)]
  }

  /** When the data handed out was looked at: at the cache check, or as it came in. */
  function ReadAt(cached: Option<Cached>, q: Consult): Time {
    if Hit(cached, q) then q.checkAt else q.replyAt
  }

  /** Everything one sweep does not choose. */
  datatype SweepEnv = SweepEnv(consult: Consult, now: Time, calls: string -> Calls)

  function SweepSession(s: System, cfg: Settings, c: Claim, instances: Option<map<string, Instance>>, now: Time,
                        k: Calls):
    System
  {
    var r := SessionSweep(cfg, c, PartOf(s.world, SlotOf(c)), instances, now, k);
    System(Put(s.world, SlotOf(c), r.view), if r.purged then None else s.cached, s.log + r.obs)
  }

  function SweepClaims(s: System, cfg: Settings, listed: seq<Claim>, instances: Option<map<string, Instance>>,
                       env: SweepEnv):
    System
  {
    if listed == [] then s
    else
      var n := |listed| - 1;
      SweepSession(SweepClaims(s, cfg, listed[..n], instances, env), cfg, listed[n], instances, env.now,
                   env.calls(listed[n].name))
  }

  function Names(listed: seq<Claim>): set<string> {
    set i | 0 <= i < |listed| :: listed[i].name
  }

  /** pruneQuiet: entries of claims that are no longer listed are dropped. */
  function PruneQuiet(quiet: map<string, Time>, alive: set<string>): map<string, Time> {
    map n | n in quiet && n in alive :: quiet[n]
  }

  /** The instance data a sweep begins with, and what getting it does to the cache. */
  function ConsultedBy(s: System, cfg: Settings, q: Consult): System {
    s.(cached := CachedAfter(cfg.connectorEnabled, s.cached, q),
       log := s.log + ConsultObs(cfg.connectorEnabled, s.cached, q)
              + [SweepBegan(Instances(cfg.connectorEnabled, s.cached, q), ReadAt(s.cached, q))])
  }

  function Consulted(s: System, cfg: Settings, env: SweepEnv): System {
    ConsultedBy(s, cfg, env.consult)
  }

  function PrunedTo(s: System, listed: seq<Claim>): System {
    s.(world := s.world.(quiet := PruneQuiet(s.world.quiet, Names(listed))), log := s.log + [Pruned(Names(listed))])
  }

  /** One sweep with nothing in between, once the claim list is in. */
  function Sweep(s: System, cfg: Settings, listed: seq<Claim>, env: SweepEnv): System {
    var instances := Instances(cfg.connectorEnabled, s.cached, env.consult);
    PrunedTo(SweepClaims(Consulted(s, cfg, env), cfg, listed, instances, env), listed)
  }
}
