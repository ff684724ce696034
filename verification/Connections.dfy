/**
 * The connection manager: two maps, one from connection ids to connections and
 * one from users to the ids attached to them, and the server's handlers that
 * change them.
 */
module Connections {
  import opened Prelude
  import opened Tables

  // ------------------------------------------------------------- the maps as values

  // `owner` has a key for every registered connection; `index` keeps the ids of a
  // user in the order in which a JavaScript Set returns them.
  datatype Registry = Registry(owner: map<Uuid, Option<Uuid>>, index: map<Uuid, seq<Uuid>>)

  function IdsOf(index: map<Uuid, seq<Uuid>>, u: Uuid): seq<Uuid> {
    if u in index then index[u] else []
  }

  function AddId(ids: seq<Uuid>, id: Uuid): (r: seq<Uuid>)
    ensures forall x :: x in r <==> x == id || x in ids
  {
    if id in ids then ids else ids + [id]
  }

  function RemoveId(index: map<Uuid, seq<Uuid>>, u: Uuid, id: Uuid): map<Uuid, seq<Uuid>> {
    if u !in index then index else
    var left := Keep(index[u], (x: Uuid) => x != id);
    if left == [] then index - {u} else index[u := left]
  }

  function Register(r: Registry, id: Uuid): Registry {
    r.(owner := r.owner[id := None])
  }

  // A connection that has been unregistered can still be attached.
  function Attach(r: Registry, id: Uuid, u: Uuid): Registry {
    Registry(if id in r.owner then r.owner[id := Some(u)] else r.owner,
             r.index[u := AddId(IdsOf(r.index, u), id)])
  }

  function Unregister(r: Registry, id: Uuid): Registry {
    if id !in r.owner then r else
    Registry(r.owner - {id},
             if r.owner[id].Some? then RemoveId(r.index, r.owner[id].value, id) else r.index)
  }

  function OnlyRegistered(ids: seq<Uuid>, registered: set<Uuid>): seq<Uuid> {
    Keep(ids, (id: Uuid) => id in registered)
  }

  function UserConnections(r: Registry, u: Uuid): seq<Uuid> {
    OnlyRegistered(IdsOf(r.index, u), r.owner.Keys)
  }

  // What the close handler does, and the user it reports as offline. `who` is the
  // userId the connection carries.
  function Close(r: Registry, id: Uuid, who: Option<Uuid>): (Registry, Option<Uuid>) {
    (Unregister(r, id), if who.Some? && |UserConnections(r, who.value)| == 1 then who else None)
  }

  // ----------------------------------------------------------------- the objects

  class Connection {
    const id: Uuid
    var userId: Option<Uuid>
    var sessionId: Option<Uuid>

    constructor (id: Uuid)
      ensures this.id == id && userId == None && sessionId == None
    {
      this.id, userId, sessionId := id, None, None;
    }
  }

  class ConnectionManager {
    var connections: map<Uuid, Connection>
    var userConnections: map<Uuid, seq<Uuid>>

    ghost predicate Valid()
      reads this
    {
      forall id <- connections :: connections[id].id == id
    }

    ghost function View(): Registry
      reads this, connections.Values
    {
      Registry(map id <- connections :: connections[id].userId, userConnections)
    }

    // Ids are never given to two connections.
    ghost predicate Knows(connection: Connection)
      reads this
    {
      connection.id in connections ==> connections[connection.id] == connection
    }

    constructor ()
      ensures Valid() && View() == Registry(map[], map[])
    {
      connections, userConnections := map[], map[];
    }

    method RegisterConnection(id: Uuid) returns (connection: Connection)
      requires Valid() && id !in connections
      modifies this
      ensures Valid() && Knows(connection) && fresh(connection) && connection.id == id
      ensures View() == Register(old(View()), id)
    {
      connection := new Connection(id);
      connections := connections[id := connection];
    }

    method UnregisterConnection(id: Uuid)
      requires Valid()
      modifies this
      ensures Valid() && View() == Unregister(old(View()), id)
      ensures forall c: Connection :: old(allocated(c)) && old(Knows(c)) ==> Knows(c)
    {
      if id !in connections {
        return;
      }
      var connection := connections[id];
      if connection.userId.Some? {
        RemoveUserConnection(connection.userId.value, id);
      }
      connections := connections - {id};
    }

    method RemoveUserConnection(u: Uuid, id: Uuid)
      modifies this`userConnections
      ensures userConnections == RemoveId(old(userConnections), u, id)
    {
      if u !in userConnections {
        return;
      }
      userConnections := userConnections[u := Keep(userConnections[u], (x: Uuid) => x != id)];
      if userConnections[u] == [] {
        userConnections := userConnections - {u};
      }
    }

    method AttachUser(connection: Connection, u: Uuid)
      requires Valid() && Knows(connection)
      modifies this, connection
      ensures Valid() && connections == old(connections) && connection.userId == Some(u)
      ensures connection.sessionId == old(connection.sessionId)
      ensures View() == Attach(old(View()), connection.id, u)
    {
      connection.userId := Some(u);
      var ids := if u in userConnections then userConnections[u] else [];
      userConnections := userConnections[u := AddId(ids, connection.id)];
    }

    method GetUserConnections(u: Uuid) returns (found: seq<Connection>)
      requires Valid()
      ensures |found| == |UserConnections(View(), u)|
      ensures forall i :: 0 <= i < |found| ==>
                found[i].id == UserConnections(View(), u)[i] && Knows(found[i]) && found[i] in connections.Values
    {
      found := [];
      if u !in userConnections {
        return;
      }
      var ids := userConnections[u];
      var i := 0;
      assert View().owner.Keys == connections.Keys;
      while i < |ids|
        invariant 0 <= i <= |ids| && |found| == |OnlyRegistered(ids[..i], connections.Keys)|
        invariant forall k :: 0 <= k < |found| ==>
                    && found[k].id == OnlyRegistered(ids[..i], connections.Keys)[k]
                    && Knows(found[k]) && found[k] in connections.Values
      {
        assert ids[..i + 1][..i] == ids[..i];
        if ids[i] in connections {
          found := found + [connections[ids[i]]];
        }
        i := i + 1;
      }
      assert ids[..i] == ids;
    }
  }

  // -------------------------------------------------------------- the server's handlers

  datatype Notice = Online(user: Uuid) | Offline(user: Uuid)

  class WebSocketServer {
    const manager: ConnectionManager
    var broadcasts: seq<Notice>

    constructor (manager: ConnectionManager)
      ensures this.manager == manager && broadcasts == []
    {
      this.manager, broadcasts := manager, [];
    }

    // Up to the first await: what follows only sends.
    method Authenticate(connection: Connection, userId: Uuid, sessionId: Uuid)
      requires manager.Valid() && manager.Knows(connection)
      modifies this, manager, connection
      ensures manager.Valid() && manager.Knows(connection)
      ensures connection.userId == Some(userId) && connection.sessionId == Some(sessionId)
      ensures manager.View() == Attach(old(manager.View()), connection.id, userId)
      ensures broadcasts == old(broadcasts) + [Online(userId)]
    {
      connection.userId := Some(userId);
      connection.sessionId := Some(sessionId);
      manager.AttachUser(connection, userId);
      broadcasts := broadcasts + [Online(userId)];
    }

    method OnClose(connection: Connection)
      requires manager.Valid() && manager.Knows(connection)
      modifies this, manager
      ensures manager.Valid()
      ensures var (after, gone) := Close(old(manager.View()), connection.id, connection.userId);
              && manager.View() == after
              && broadcasts == old(broadcasts) + (if gone.Some? then [Offline(gone.value)] else [])
    {
      var userId := connection.userId;
      var userConnections := [];
      if userId.Some? {
        userConnections := manager.GetUserConnections(userId.value);
      }
      var wasLastConnection := userId.Some? && |userConnections| == 1;
      manager.UnregisterConnection(connection.id);
      if wasLastConnection {
        broadcasts := broadcasts + [Offline(userId.value)];
      }
    }
  }
}
