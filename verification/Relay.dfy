/** The relay connector's admin plane: gateway rows, chat routes, and the activity readout. */
module Relay {
  import opened Wrappers
  import opened GoTime
  import opened Network

  /** One row of the activity readout. Timestamps are unix seconds; None is "unknown". */
  datatype Instance = Instance(
    gatewayId: string,
    revoked: bool,
    connected: bool,
    bufferedCount: int,
    lastInboundAt: Option<Int64>,
    lastOutboundAt: Option<Int64>,
    turnInFlight: bool)

  datatype Chat = Chat(platform: string, chatId: string)

  datatype Registration = Registration(
    platform: string,
    botId: string,
    routeKeys: seq<string>,
    wakeUrl: string,
    displayName: string)

  /** Provisioning an existing gateway never clears a stored value. */
  function Coalesce(stored: Option<Registration>, asked: Registration): Registration {
    match stored
    case None => asked
    case Some(old_) =>
      asked.(wakeUrl := if asked.wakeUrl == "" then old_.wakeUrl else asked.wakeUrl,
             displayName := if asked.displayName == "" then old_.displayName else asked.displayName,
             routeKeys := if asked.routeKeys == [] then old_.routeKeys else asked.routeKeys)
  }

  /** A pod provisions again at every boot, without wake URL and routes: each of the three survives a
      request that leaves it out, and asking twice is asking once. */
  lemma ProvisionNeverClears(stored: Registration, asked: Registration)
    ensures var row := Coalesce(Some(stored), asked);
      && row.platform == asked.platform && row.botId == asked.botId
      && (asked.wakeUrl == "" ==> row.wakeUrl == stored.wakeUrl)
      && (asked.wakeUrl != "" ==> row.wakeUrl == asked.wakeUrl)
      && (asked.displayName == "" ==> row.displayName == stored.displayName)
      && (asked.displayName != "" ==> row.displayName == asked.displayName)
      && (asked.routeKeys == [] ==> row.routeKeys == stored.routeKeys)
      && (asked.routeKeys != [] ==> row.routeKeys == asked.routeKeys)
      && Coalesce(Some(row), asked) == row
  {
  }

  /** The chats bound to one gateway. */
  function Bound(routes: map<Chat, string>, id: string): set<Chat> {
    set chat | chat in routes && routes[chat] == id
  }

  /** The routes left when gateway `id` keeps only the chats of `keep`. */
  function KeepBound(routes: map<Chat, string>, id: string, keep: set<Chat>): map<Chat, string> {
    map chat | chat in routes && (routes[chat] != id || chat in keep) :: routes[chat]
  }

  /** Deleting an unknown gateway is a 404 and changes nothing. */
  function RoutesAfterDelete(instances: map<string, Registration>, routes: map<Chat, string>, id: string, net: Net):
    map<Chat, string>
  {
    if net.Applied() && id in instances then KeepBound(routes, id, {}) else routes
  }

  /** The by-id index of a readout: the last row of a gateway wins. */
  function IndexById(rows: seq<Instance>): map<string, Instance> {
    if rows == [] then map[]
    else
      var last := rows[|rows| - 1];
      IndexById(rows[..|rows| - 1])[last.gatewayId := last]
  }

  lemma {:induction false} IndexHoldsTheLastRow(rows: seq<Instance>, id: string)
    ensures id in IndexById(rows) <==> exists i :: 0 <= i < |rows| && rows[i].gatewayId == id
    ensures id in IndexById(rows) ==>
      exists i :: 0 <= i < |rows| && rows[i].gatewayId == id && IndexById(rows)[id] == rows[i]
        && forall j :: i < j < |rows| ==> rows[j].gatewayId != id
  {
    if rows == [] {
    } else {
      var n := |rows| - 1;
      IndexHoldsTheLastRow(rows[..n], id);
      assert rows[n].gatewayId == id || (forall i :: 0 <= i < n ==> rows[..n][i] == rows[i]);
      if rows[n].gatewayId != id && id in IndexById(rows) {
        var i :| 0 <= i < n && rows[..n][i].gatewayId == id && IndexById(rows[..n])[id] == rows[..n][i]
          && forall j :: i < j < n ==> rows[..n][j].gatewayId != id;
        assert rows[i].gatewayId == id;
        forall j | i < j < |rows| ensures rows[j].gatewayId != id {
          if j < n { assert rows[..n][j] == rows[j]; }
        }
      }
    }
  }

  /** The connector as its admin API shows it. */
  class Hub {
    var instances: map<string, Registration>
    var routes: map<Chat, string>

    constructor ()
      ensures instances == map[] && routes == map[]
    {
      instances, routes := map[], map[];
    }

    method Provision(id: string, asked: Registration, net: Net) returns (err: Option<Error>)
      modifies this`instances
      ensures err.None? <==> net.Delivered?
      ensures instances == if net.Applied()
                           then old(instances)[id := Coalesce(Lookup(old(instances), id), asked)]
                           else old(instances)
    {
      if net.Applied() {
        instances := instances[id := Coalesce(Lookup(instances, id), asked)];
      }
      return if net.Delivered? then None else Some(Unreachable);
    }

    method SetRoute(chat: Chat, id: string, net: Net) returns (err: Option<Error>)
      modifies this`routes
      ensures err.None? <==> net.Delivered?
      ensures routes == if net.Applied() then old(routes)[chat := id] else old(routes)
    {
      if net.Applied() {
        routes := routes[chat := id];
      }
      return if net.Delivered? then None else Some(Unreachable);
    }

    /** Purges the gateway row and every route bound to it. */
    method DeleteInstance(id: string, net: Net) returns (err: Option<Error>)
      modifies this
      ensures err == Reply(net, Lookup(old(instances), id))
      ensures instances == if net.Applied() then old(instances) - {id} else old(instances)
      ensures routes == RoutesAfterDelete(old(instances), old(routes), id, net)
    {
      err := if !net.Delivered? then Some(Unreachable) else if id !in instances then Some(NotFound) else None;
      if net.Applied() && id in instances {
        instances := instances - {id};
        routes := KeepBound(routes, id, {});
      }
    }
  }
}
