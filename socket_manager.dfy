/** The WebSocket connection table: for each project, the sockets that listen to it in the order
    they connected. A project is in the table only while it has a socket. */
module SocketManagement {
  import opened SeqUtil

  /** A WebSocket, by identity. */
  type Socket = nat

  type Table = map<string, seq<Socket>>

  /** No project maps to an empty list. */
  predicate NoEmptyLists(table: Table)
  {
    forall p :: p in table ==> table[p] != []
  }

  /** The sockets of a project, none when it is absent. */
  function ListOf(table: Table, project: string): seq<Socket>
  {
    if project in table then table[project] else []
  }

  /** `list.remove(x)` when `x` is present: the first occurrence taken out; `s` itself otherwise. */
  function RemoveFirst(s: seq<Socket>, x: Socket): (r: seq<Socket>)
    ensures x !in s ==> r == s
  {
    if |s| == 0 then []
    else if s[0] == x then s[1..]
    else [s[0]] + RemoveFirst(s[1..], x)
  }

  /** Exactly one occurrence of a present `x` is taken out. */
  lemma {:induction false} RemoveFirstOnce(s: seq<Socket>, x: Socket)
    requires x in s
    ensures |RemoveFirst(s, x)| == |s| - 1
    ensures multiset(RemoveFirst(s, x)) == multiset(s) - multiset{x}
  {
    assert s == [s[0]] + s[1..];
    if s[0] != x {
      RemoveFirstOnce(s[1..], x);
    }
  }

  /** Removing `x` from a list whose first part does not hold it leaves that part alone. */
  lemma {:induction false} RemoveFirstAfter(a: seq<Socket>, b: seq<Socket>, x: Socket)
    requires x !in a
    ensures RemoveFirst(a + b, x) == a + RemoveFirst(b, x)
  {
    if |a| > 0 {
      assert (a + b)[1..] == a[1..] + b;
      RemoveFirstAfter(a[1..], b, x);
      assert [a[0]] + a[1..] == a;
    } else {
      assert a + b == b;
    }
  }

  /** `connect`: the socket appended to its project's list, the list created when absent. */
  function Connected(table: Table, ws: Socket, project: string): Table
  {
    table[project := ListOf(table, project) + [ws]]
  }

  /** `disconnect`: the socket's first occurrence removed from its project's list, and the project
      dropped once its list is empty. */
  function Disconnected(table: Table, ws: Socket, project: string): Table
  {
    if project !in table then table
    else
      var rest := RemoveFirst(table[project], ws);
      if rest == [] then table - {project} else table[project := rest]
  }

  /** The table with `project`'s list replaced by `rest`, dropped when that is empty. */
  function WithList(table: Table, project: string, rest: seq<Socket>): Table
  {
    if rest == [] then table - {project} else table[project := rest]
  }

  /** `broadcast`: every socket of the project's list whose send fails is disconnected, so the
      list keeps the sockets the message reached. */
  function Broadcasted(table: Table, project: string, delivered: Socket -> bool): Table
  {
    if project !in table then table else WithList(table, project, Filter(table[project], delivered))
  }

  /** Connecting and disconnecting keep every list non-empty. */
  lemma TableStaysValid(table: Table, ws: Socket, project: string, delivered: Socket -> bool)
    requires NoEmptyLists(table)
    ensures NoEmptyLists(Connected(table, ws, project))
    ensures NoEmptyLists(Disconnected(table, ws, project))
    ensures NoEmptyLists(Broadcasted(table, project, delivered))
  {
  }

  /** `disconnect` takes out exactly one occurrence of a connected socket and touches no other
      project; for an unknown project or socket it changes nothing. */
  lemma DisconnectEffect(table: Table, ws: Socket, project: string)
    requires NoEmptyLists(table)
    ensures ws in ListOf(table, project) ==>
      multiset(ListOf(Disconnected(table, ws, project), project)) == multiset(ListOf(table, project)) - multiset{ws}
    ensures ws !in ListOf(table, project) ==> Disconnected(table, ws, project) == table
    ensures forall p :: p != project ==> ListOf(Disconnected(table, ws, project), p) == ListOf(table, p)
  {
    if project in table && ws !in table[project] {
      assert table[project := table[project]] == table;
    }
    if ws in ListOf(table, project) {
      RemoveFirstOnce(table[project], ws);
    }
  }

  /** A socket that connects and then disconnects, not having been connected before, leaves the
      table as it found it. */
  lemma ConnectThenDisconnect(table: Table, ws: Socket, project: string)
    requires NoEmptyLists(table)
    requires ws !in ListOf(table, project)
    ensures Disconnected(Connected(table, ws, project), ws, project) == table
  {
    var l := ListOf(table, project);
    var c := Connected(table, ws, project);
    RemoveFirstAfter(l, [ws], ws);
    assert RemoveFirst([ws], ws) == [];
    assert RemoveFirst(c[project], ws) == l;
    if project in table {
      assert c[project := l] == table;
    } else {
      assert c - {project} == table;
    }
  }

  /** After a broadcast the project keeps exactly the sockets the message reached, in order. */
  lemma BroadcastKeepsReached(table: Table, project: string, delivered: Socket -> bool)
    requires NoEmptyLists(table)
    ensures ListOf(Broadcasted(table, project, delivered), project) == Filter(ListOf(table, project), delivered)
    ensures forall p :: p != project ==> ListOf(Broadcasted(table, project, delivered), p) == ListOf(table, p)
  {
  }

  /** Disconnecting a socket that the sockets already served do not include takes it out of the
      rest of the snapshot. */
  lemma FailedSendDisconnects(table: Table, project: string, sent: seq<Socket>, x: Socket, rest: seq<Socket>)
    requires x !in sent
    ensures Disconnected(WithList(table, project, sent + ([x] + rest)), x, project) == WithList(table, project, sent + rest)
  {
    RemoveFirstAfter(sent, [x] + rest, x);
    assert ([x] + rest)[1..] == rest;
    var t := table[project := sent + ([x] + rest)];
    if sent + rest == [] {
      assert t - {project} == table - {project};
    } else {
      assert t[project := sent + rest] == table[project := sent + rest];
    }
  }

  /** The manager, holding the table. */
  class SocketManager {
    var activeConnections: Table

    ghost predicate Valid()
      reads this
    {
      NoEmptyLists(activeConnections)
    }

    constructor()
      ensures activeConnections == map[] && Valid()
    {
      activeConnections := map[];
    }

    /** `SocketManager.connect`, after the socket has been accepted. */
    method Connect(ws: Socket, project: string)
      requires Valid()
      modifies this
      ensures Valid()
      ensures activeConnections == Connected(old(activeConnections), ws, project)
    {
      if project !in activeConnections {
        activeConnections := activeConnections[project := []];
      }
      activeConnections := activeConnections[project := activeConnections[project] + [ws]];
    }

    /** `SocketManager.disconnect`. */
    method Disconnect(ws: Socket, project: string)
      requires Valid()
      modifies this
      ensures Valid()
      ensures activeConnections == Disconnected(old(activeConnections), ws, project)
    {
      if project in activeConnections {
        if ws in activeConnections[project] {
          activeConnections := activeConnections[project := RemoveFirst(activeConnections[project], ws)];
        }
        if activeConnections[project] == [] {
          activeConnections := activeConnections - {project};
        }
      }
    }

    /** `SocketManager.broadcast`: the message goes to each socket of a snapshot of the project's
        list; `delivered` says which sends succeed, and a failed one disconnects its socket.
        `sent` lists the sockets the message reached. */
    method Broadcast(project: string, delivered: Socket -> bool) returns (sent: seq<Socket>)
      requires Valid()
      modifies this
      ensures Valid()
      ensures activeConnections == Broadcasted(old(activeConnections), project, delivered)
      ensures sent == Filter(ListOf(old(activeConnections), project), delivered)
    {
      sent := [];
      if project !in activeConnections {
        return;
      }
      var connections := activeConnections[project];
      ghost var before := activeConnections;
      assert WithList(before, project, [] + connections[0..]) == before by {
        assert [] + connections[0..] == connections;
      }
      for i := 0 to |connections|
        invariant Valid()
        invariant sent == Filter(connections[..i], delivered)
        invariant activeConnections == WithList(before, project, sent + connections[i..])
      {
        PrefixSnoc(connections, i);
        SuffixCons(connections, i);
        FilterSnoc(connections[..i], connections[i], delivered);
        sent := Send(project, delivered, before, sent, connections[i], connections[i + 1..]);
      }
      assert connections[..|connections|] == connections;
      assert sent + connections[|connections|..] == sent;
    }

    /** One send of the broadcast loop: on failure the socket is disconnected. */
    method Send(project: string, delivered: Socket -> bool, ghost before: Table, sent: seq<Socket>,
                connection: Socket, ghost rest: seq<Socket>) returns (next: seq<Socket>)
      requires Valid()
      requires delivered(connection) || connection !in sent
      requires activeConnections == WithList(before, project, sent + ([connection] + rest))
      modifies this
      ensures Valid()
      ensures next == sent + if delivered(connection) then [connection] else []
      ensures activeConnections == WithList(before, project, next + rest)
    {
      if delivered(connection) {
        assert sent + ([connection] + rest) == (sent + [connection]) + rest;
        next := sent + [connection];
      } else {
        FailedSendDisconnects(before, project, sent, connection, rest);
        Disconnect(connection, project);
        next := sent;
      }
    }
  }
}
