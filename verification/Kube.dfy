/** The Kubernetes objects a session is made of, and the API server seen through its client.

    Class `Cluster` follows the in-memory client, whose controller settles at once: a patch of
    the operating mode drives the two conditions, and deleting a claim takes its bound
    sandbox along. Every call takes its own `Net` outcome. */
module Kube {
  import opened Wrappers
  import opened GoTime
  import opened Network

  /** spec.operatingMode; `Unset` is the empty string, which defaults to Running. */
  datatype Mode = Unset | Running | Suspended

  /** A sandbox is stored under its own name, so the name is the key and not a field. */
  datatype Sandbox = Sandbox(
    mode: Mode,
    ready: bool,
    readyChanged: Option<Time>,
    suspended: bool,
    serviceFQDN: string)

  /** The wake-at annotation as the sweeper reads it: missing (or empty), an RFC 3339 text
      with its instant in whole seconds, or text that does not parse. */
  datatype WakeAt = Absent | At(seconds: int) | Malformed

  /** A SandboxClaim. The five annotations the lifecycle-manager knows are fields; an empty
      string stands for a missing knob, and `connector` says whether that annotation is "true". */
  datatype Claim = Claim(
    name: string,
    createdAt: Option<Time>,
    terminating: bool,
    sandboxName: string,
    ttlSeconds: string,
    idleTimeoutSeconds: string,
    displayName: string,
    connector: bool,
    wakeAt: WakeAt)
  {
    /** The sandbox the claim stands for, bound or not yet. */
    function Resolve(): string {
      if sandboxName == "" then name else sandboxName
    }
  }

  datatype State = Unresolved | Ready | Waking | Asleep | Suspending | Terminating | Pending

  /** session.Derive. */
  function Derive(terminating: bool, sandbox: Option<Sandbox>): State {
    if terminating then Terminating
    else if sandbox.None? then Pending
    else if sandbox.value.mode.Suspended? && sandbox.value.suspended then Asleep
    else if sandbox.value.mode.Suspended? then Suspending
    else if sandbox.value.ready then Ready
    else Waking
  }

  /** Deletion decides first, then whether there is a sandbox, then its mode and conditions. */
  lemma StateIs(terminating: bool, sandbox: Option<Sandbox>)
    ensures var state := Derive(terminating, sandbox);
      && state != Unresolved && (state == Terminating <==> terminating)
      && (state == Pending <==> !terminating && sandbox.None?)
      && (!terminating && sandbox.Some? ==>
            var x := sandbox.value;
            && (state == Ready <==> x.mode != Suspended && x.ready)
            && (state == Waking <==> x.mode != Suspended && !x.ready)
            && (state == Asleep <==> x.mode == Suspended && x.suspended)
            && (state == Suspending <==> x.mode == Suspended && !x.suspended))
  {
  }

  /** A sandbox after an operating-mode patch, settled. */
  function Settled(sandbox: Sandbox, mode: Mode, at: Time): Sandbox {
    sandbox.(mode := mode, suspended := mode.Suspended?, ready := mode.Running?, readyChanged := Some(at))
  }

  /** What an operating-mode patch leaves of a sandbox that may not exist. */
  function Patched(sandbox: Option<Sandbox>, mode: Mode, at: Time, net: Net): Option<Sandbox> {
    if net.Applied() && sandbox.Some? then Some(Settled(sandbox.value, mode, at)) else sandbox
  }

  /** What a wake-at patch leaves of a claim that may not exist. */
  function Stamped(claim: Option<Claim>, wakeAt: WakeAt, net: Net): Option<Claim> {
    if net.Applied() && claim.Some? then Some(claim.value.(wakeAt := wakeAt)) else claim
  }

  /** `claims` lists exactly the claims of the map, each once. */
  ghost predicate Lists(claims: map<string, Claim>, listed: seq<Claim>) {
    && (forall i, j :: 0 <= i < j < |listed| ==> listed[i].name != listed[j].name)
    && (forall i :: 0 <= i < |listed| ==> listed[i].name in claims && claims[listed[i].name] == listed[i])
    && (forall n :: n in claims ==> exists i :: 0 <= i < |listed| && listed[i].name == n)
  }

  /** Every claim is stored under its own name. */
  ghost predicate Keyed(claims: map<string, Claim>) {
    forall n :: n in claims ==> claims[n].name == n
  }

  class Cluster {
    var claims: map<string, Claim>
    var sandboxes: map<string, Sandbox>
    /** Whether a new claim is bound to a Ready sandbox at once. */
    const bindAtOnce: bool

    constructor (bindAtOnce: bool)
      ensures claims == map[] && sandboxes == map[] && this.bindAtOnce == bindAtOnce
    {
      claims, sandboxes := map[], map[];
      this.bindAtOnce := bindAtOnce;
    }

    method CreateClaim(claim: Claim, at: Time, net: Net) returns (err: Option<Error>)
      modifies this
      ensures claims == ClaimsAfterCreate(old(claims), claim, at, bindAtOnce, net)
      ensures sandboxes == SandboxesAfterCreate(old(claims), old(sandboxes), claim, at, bindAtOnce, net)
      ensures err == CreateReply(old(claims), claim.name, net)
    {
      if net.Refused? {
        return Some(Unreachable);
      }
      if claim.name in claims {
        return if net.Lost? then Some(Unreachable) else Some(AlreadyExists);
      }
      var created := claim.(createdAt := Some(at));
      if bindAtOnce {
        created := created.(sandboxName := claim.name);
        sandboxes := sandboxes[claim.name := Sandbox(Running, true, Some(at), false, "")];
      }
      claims := claims[claim.name := created];
      return if net.Lost? then Some(Unreachable) else None;
    }

    method GetClaim(name: string, net: Net) returns (claim: Option<Claim>, err: Option<Error>)
      ensures err == Reply(net, Lookup(claims, name))
      ensures claim == if err.None? then Lookup(claims, name) else None
    {
      claim := None;
      if !net.Delivered? {
        return None, Some(Unreachable);
      }
      if name !in claims {
        return None, Some(NotFound);
      }
      return Some(claims[name]), None;
    }

    /** The managed claims, in no promised order. */
    method ListClaims(net: Net) returns (listed: seq<Claim>, err: Option<Error>)
      requires Keyed(claims)
      ensures err.None? <==> net.Delivered?
      ensures err.None? ==> Lists(claims, listed)
    {
      listed := [];
      if !net.Delivered? {
        return [], Some(Unreachable);
      }
      var names := claims.Keys;
      while names != {}
        invariant names <= claims.Keys
        invariant forall i :: 0 <= i < |listed| ==>
          listed[i].name in claims && claims[listed[i].name] == listed[i] && listed[i].name !in names
        invariant forall i, j :: 0 <= i < j < |listed| ==> listed[i].name != listed[j].name
        invariant forall n :: n in claims && n !in names ==> exists i :: 0 <= i < |listed| && listed[i].name == n
        decreases names
      {
        var name :| name in names;
        ghost var before := listed;
        listed := listed + [claims[name]];
        names := names - {name};
        forall n | n in claims && n !in names
          ensures exists i :: 0 <= i < |listed| && listed[i].name == n
        {
          if n == name {
            assert listed[|before|].name == n;
          } else {
            var i :| 0 <= i < |before| && before[i].name == n;
            assert listed[i].name == n;
          }
        }
      }
      err := None;
    }

    method DeleteClaim(name: string, net: Net) returns (err: Option<Error>)
      modifies this
      ensures err == Reply(net, Lookup(old(claims), name))
      ensures claims == if net.Applied() then old(claims) - {name} else old(claims)
      ensures sandboxes == SandboxesAfterDelete(old(claims), old(sandboxes), name, net)
    {
      err := if net.Delivered? then None else Some(Unreachable);
      if net.Refused? {
        return;
      }
      if name !in claims {
        return if net.Delivered? then Some(NotFound) else err;
      }
      var claim := claims[name];
      claims := claims - {name};
      if claim.sandboxName != "" {
        sandboxes := sandboxes - {claim.sandboxName};
      }
    }

    method PatchWakeAt(name: string, wakeAt: WakeAt, net: Net) returns (err: Option<Error>)
      modifies this`claims
      ensures err == Reply(net, Lookup(old(claims), name))
      ensures claims == Store(old(claims), name, Stamped(Lookup(old(claims), name), wakeAt, net))
    {
      err := if net.Delivered? then None else Some(Unreachable);
      if net.Refused? {
        assert Store(claims, name, Lookup(claims, name)) == claims;
        return;
      }
      if name !in claims {
        return if net.Delivered? then Some(NotFound) else err;
      }
      claims := claims[name := claims[name].(wakeAt := wakeAt)];
    }

    method GetSandbox(name: string, net: Net) returns (sandbox: Option<Sandbox>, err: Option<Error>)
      ensures err == Reply(net, Lookup(sandboxes, name))
      ensures sandbox == if err.None? then Lookup(sandboxes, name) else None
    {
      sandbox := None;
      if !net.Delivered? {
        return None, Some(Unreachable);
      }
      if name !in sandboxes {
        return None, Some(NotFound);
      }
      return Some(sandboxes[name]), None;
    }

    method PatchOperatingMode(name: string, mode: Mode, at: Time, net: Net) returns (err: Option<Error>)
      modifies this`sandboxes
      ensures err == Reply(net, Lookup(old(sandboxes), name))
      ensures sandboxes == Store(old(sandboxes), name, Patched(Lookup(old(sandboxes), name), mode, at, net))
    {
      err := if net.Delivered? then None else Some(Unreachable);
      if net.Refused? {
        assert Store(sandboxes, name, Lookup(sandboxes, name)) == sandboxes;
        return;
      }
      if name !in sandboxes {
        return if net.Delivered? then Some(NotFound) else err;
      }
      sandboxes := sandboxes[name := Settled(sandboxes[name], mode, at)];
    }
  }

  function ClaimsAfterCreate(claims: map<string, Claim>, claim: Claim, at: Time, bind: bool, net: Net): map<string,
                             Claim>
  {
    if net.Refused? || claim.name in claims then claims
    else
      var name := if bind then claim.name else claim.sandboxName;
      claims[claim.name := claim.(createdAt := Some(at), sandboxName := name)]
  }

  function SandboxesAfterCreate(claims: map<string, Claim>, sandboxes: map<string, Sandbox>, claim: Claim, at: Time,
                                bind: bool, net: Net): map<string, Sandbox>
  {
    if net.Refused? || claim.name in claims || !bind then sandboxes
    else sandboxes[claim.name := Sandbox(Running, true, Some(at), false, "")]
  }

  function CreateReply(claims: map<string, Claim>, name: string, net: Net): Option<Error> {
    if !net.Delivered? then Some(Unreachable) else if name in claims then Some(AlreadyExists) else None
  }

  function SandboxesAfterDelete(claims: map<string, Claim>, sandboxes: map<string, Sandbox>, name: string, net: Net):
    map<string, Sandbox>
  {
    if net.Applied() && name in claims && claims[name].sandboxName != "" then sandboxes - {claims[name].sandboxName}
    else sandboxes
  }
}
