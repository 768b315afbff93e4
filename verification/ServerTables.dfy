/** The server's shared tables as its handlers update them, one handler at a time.
    (`RelayModel` interleaves the single table operations of these handlers.) */
module ServerTables {
  import opened Protocol

  /** The frames these handlers put into a connection's queue. */
  datatype WebFrame =
    | Opened(protocol: nat, sid: nat, msgId: Option<nat>)
    | ClosedFrame(protocol: nat, sid: nat, msgId: Option<nat>)
    | Payload(body: Bytes)
    | NodeNotFound(node: Uuid, msgId: Option<nat>)

  /** What has happened to the tunnel table. */
  datatype RouteEvent =
    | RouteOpened(key: Key, cid: Uuid)
    | RouteClosed(key: Key)
    | RouteRemoved(key: Key)

  type Routes = map<Key, (Uuid, Uuid)>

  function After(routes: Routes, e: RouteEvent): Routes {
    if e.RouteOpened? then routes[e.key := (e.cid, e.key.node)] else routes - {e.key}
  }

  /** The tunnel table as the fold of its history. */
  function Fold(history: seq<RouteEvent>): Routes {
    if history == [] then map[] else After(Fold(history[..|history| - 1]), history[|history| - 1])
  }

  lemma FoldSnoc(history: seq<RouteEvent>, e: RouteEvent)
    ensures Fold(history + [e]) == After(Fold(history), e)
  {
    assert (history + [e])[..|history|] == history;
  }

  lemma RemoveSnoc(history: seq<RouteEvent>, key: Key)
    ensures Fold(history + [RouteRemoved(key)]) == Fold(history) - {key}
  {
    FoldSnoc(history, RouteRemoved(key));
  }

  /** `i` is the last event about `key`. */
  ghost predicate LastAbout(history: seq<RouteEvent>, key: Key, i: nat) {
    i < |history| && history[i].key == key && forall j :: i < j < |history| ==> history[j].key != key
  }

  /** The last event about `key` named connection `cid` and opened it. */
  ghost predicate LastOpened(history: seq<RouteEvent>, key: Key, cid: Uuid) {
    exists i: nat :: LastAbout(history, key, i) && history[i] == RouteOpened(key, cid)
  }

  lemma LastOpenedSnoc(history: seq<RouteEvent>, e: RouteEvent, key: Key, cid: Uuid)
    ensures LastOpened(history + [e], key, cid) <==>
            if e.key == key then e == RouteOpened(key, cid) else LastOpened(history, key, cid)
  {
    var longer := history + [e];
    if e.key == key {
      assert LastAbout(longer, key, |history|);
    } else {
      forall i: nat | i < |history| ensures LastAbout(longer, key, i) <==> LastAbout(history, key, i) {
        assert forall j :: i < j < |history| ==> longer[j] == history[j];
      }
    }
  }

  /** A route exists exactly when the last event about its key opened it, and then it
      names the connection that event named and the key's own node. */
  lemma {:induction false} RouteIsLastOpened(history: seq<RouteEvent>, key: Key, cid: Uuid, node: Uuid)
    ensures key in Fold(history) && Fold(history)[key] == (cid, node)
      <==> node == key.node && LastOpened(history, key, cid)
  {
    if history != [] {
      var n := |history| - 1;
      RouteIsLastOpened(history[..n], key, cid, node);
      LastOpenedSnoc(history[..n], history[n], key, cid);
      assert history == history[..n] + [history[n]];
    }
  }

  /** Every entry stores its key's node; so the browser's lookup and the agent's agree. */
  lemma {:induction false} LookupsAgree(history: seq<RouteEvent>, c: Uuid, n: Uuid, sid: nat)
    ensures NodeByCidAndSid(Fold(history), c, n, sid) == Some(n) <==> ConnectionBySid(Fold(history), sid, n) == Some(c)
  {
    EntriesNameTheirNode(history);
  }

  lemma {:induction false} EntriesNameTheirNode(history: seq<RouteEvent>)
    ensures forall key :: key in Fold(history) ==> Fold(history)[key].1 == key.node
  {
    if history != [] {
      EntriesNameTheirNode(history[..|history| - 1]);
    }
  }

  /** `order` lists the routes of node `id`, each once. */
  ghost predicate Sweeps(order: seq<Key>, id: Uuid, routes: Routes) {
    && (forall key :: key in order <==> key in routes && key.node == id)
    && (forall i, j :: 0 <= i < j < |order| ==> order[i] != order[j])
  }

  /** How many of `keys` belong to a reachable connection. */
  function Told(keys: seq<Key>, routes: Routes, reach: set<Uuid>): nat {
    if keys == [] then 0
    else
      var key := keys[|keys| - 1];
      Told(keys[..|keys| - 1], routes, reach) + (if key in routes && routes[key].0 in reach then 1 else 0)
  }

  /** The notices for connection `c` when `keys` are removed in this order. */
  function Notices(keys: seq<Key>, routes: Routes, reach: set<Uuid>, c: Uuid): seq<WebFrame> {
    if keys == [] then []
    else
      var key := keys[|keys| - 1];
      Notices(keys[..|keys| - 1], routes, reach, c) +
      (if key in routes && routes[key].0 == c && c in reach then [ClosedFrame(0, key.sid, None)] else [])
  }

  lemma NoticesSnoc(keys: seq<Key>, key: Key, routes: Routes, reach: set<Uuid>, c: Uuid)
    requires key in routes
    ensures Notices(keys + [key], routes, reach, c) ==
            Notices(keys, routes, reach, c) + (if routes[key].0 == c
                                               && c in reach then [ClosedFrame(0, key.sid, None)] else [])
    ensures Told(keys + [key], routes, reach) == Told(keys, routes, reach) + (if routes[key].0 in reach then 1 else 0)
  {
    assert (keys + [key])[..|keys|] == keys;
  }

  /** Midway through the removal: `left` are the routes of `id` still to go, `order` those
      already gone, `now` the table. */
  ghost predicate Midway(left: set<Key>, order: seq<Key>, routes: Routes, now: Routes, id: Uuid) {
    && (forall key :: key in left ==> key in routes && key.node == id)
    && (forall key :: key in order <==> key in routes && key.node == id && key !in left)
    && (forall i, j :: 0 <= i < j < |order| ==> order[i] != order[j])
    && (forall key :: key in now <==> key in routes && (key.node != id || key in left))
    && (forall key :: key in now ==> now[key] == routes[key])
  }

  lemma MidwayStep(left: set<Key>, order: seq<Key>, routes: Routes, now: Routes, id: Uuid, key: Key)
    requires Midway(left, order, routes, now, id) && key in left
    ensures key in routes && Midway(left - {key}, order + [key], routes, now - {key}, id)
  {
    assert forall k :: k in order + [key] <==> k in order || k == key;
  }

  ghost predicate Mailed(queues: map<Uuid, seq<WebFrame>>, before: map<Uuid, seq<WebFrame>>, order: seq<Key>,
                         routes: Routes, reach: set<Uuid>) {
    queues.Keys == before.Keys && forall c :: c in queues ==> queues[c] == before[c] + Notices(order, routes, reach, c)
  }

  lemma MailedStep(queues: map<Uuid, seq<WebFrame>>, before: map<Uuid, seq<WebFrame>>, order: seq<Key>,
                   routes: Routes, reach: set<Uuid>, key: Key)
    requires Mailed(queues, before, order, routes, reach) && key in routes && reach <= queues.Keys
    ensures var to := routes[key].0;
            Mailed(if to in reach then queues[to := queues[to] + [ClosedFrame(0, key.sid, None)]]
                   else queues, before, order + [key], routes, reach)
  {
    hide Notices;
    var to := routes[key].0;
    var queues' := if to in reach then queues[to := queues[to] + [ClosedFrame(0, key.sid, None)]] else queues;
    forall c | c in queues' ensures queues'[c] == before[c] + Notices(order + [key], routes, reach, c) {
      NoticesSnoc(order, key, routes, reach, c);
      if c == to && c in reach {
        assert before[c] + Notices(order, routes, reach, c) + [ClosedFrame(0, key.sid, None)]
          == before[c] + (Notices(order, routes, reach, c) + [ClosedFrame(0, key.sid, None)]);
      } else {
        assert Notices(order, routes, reach, c) + [] == Notices(order, routes, reach, c);
      }
    }
  }

  lemma RemovalStart(queues: map<Uuid, seq<WebFrame>>, routes: Routes, reach: set<Uuid>, id: Uuid)
    ensures Mailed(queues, queues, [], routes, reach) && Told([], routes, reach) == 0
    ensures Midway(set key | key in routes && key.node == id, [], routes, routes, id)
  {
  }

  lemma RemovalEnd(order: seq<Key>, routes: Routes, now: Routes, id: Uuid)
    requires Midway({}, order, routes, now, id)
    ensures Sweeps(order, id, routes) && Kept(now, routes, id)
  {
  }

  /** `now` is `routes` without the routes of node `id`. */
  ghost predicate Kept(now: Routes, routes: Routes, id: Uuid) {
    && (forall key :: key in now <==> key in routes && key.node != id)
    && (forall key :: key in now ==> now[key] == routes[key])
  }

  class AppState {
    var nodes: map<Uuid, nat>                  // node id -> last heartbeat
    var connections: map<Uuid, nat>            // connection id -> last heartbeat
    var queues: map<Uuid, seq<WebFrame>>       // what was pushed to each connection
    var closed: set<Uuid>                      // connections whose writer task is gone
    var tunnelSessions: Routes
    var nodeQueues: map<Uuid, seq<DownFrame>>  // what was pushed to each node's current socket
    var deaf: set<Uuid>                        // nodes whose socket's writer task is gone
    ghost var history: seq<RouteEvent>

    ghost predicate Valid()
      reads this
    {
      tunnelSessions == Fold(history) && connections.Keys <= queues.Keys && nodes.Keys <= nodeQueues.Keys
    }

    constructor ()
      ensures Valid() && nodes == map[] && connections == map[] && tunnelSessions == map[] && history == []
    {
      nodes, connections, queues, closed, tunnelSessions, history := map[], map[], map[], {}, map[], [];
      nodeQueues, deaf := map[], {};
    }

    /** A newer socket of a node takes the place of an older one; routes stay. */
    method RegisterNode(id: Uuid, now: nat)
      requires Valid()
      modifies this`nodes, this`nodeQueues, this`deaf
      ensures Valid() && nodes == old(nodes)[id := now]
      ensures nodeQueues == old(nodeQueues)[id := []] && deaf == old(deaf) - {id}
    {
      nodes := nodes[id := now];
      nodeQueues := nodeQueues[id := []];
      deaf := deaf - {id};
    }

    /** The connections a push succeeds for. */
    function Reach(): set<Uuid>
      reads this`connections, this`closed
    {
      connections.Keys - closed
    }

    /** Whether a push to `cid` succeeds. */
    predicate Reachable(cid: Uuid)
      reads this`connections, this`closed
    {
      cid in Reach()
    }

    method NotifyClientByCid(cid: Uuid, frame: WebFrame) returns (ok: bool)
      requires Valid()
      modifies this`queues
      ensures Valid() && ok == Reachable(cid)
      ensures cid in old(queues) && ok ==> queues == old(queues)[cid := old(queues)[cid] + [frame]]
      ensures !ok ==> queues == old(queues)
    {
      ok := Reachable(cid);
      if ok {
        queues := queues[cid := queues[cid] + [frame]];
      }
    }

    method HandleTunnelOpened(protocol: nat, cid: Uuid, sid: nat, nodeId: Uuid, msgId: Option<nat>)
      requires Valid()
      modifies this`queues, this`tunnelSessions, this`history
      ensures Valid() && history == old(history) + [RouteOpened(Key(nodeId, sid), cid)]
      ensures queues == if Reachable(cid) then old(queues)[cid := old(queues)[cid] + [Opened(protocol, sid, msgId)]]
        else old(queues)
    {
      var key := Key(nodeId, sid);
      FoldSnoc(history, RouteOpened(key, cid));
      tunnelSessions := tunnelSessions[key := (cid, nodeId)];
      history := history + [RouteOpened(key, cid)];
      var _ := NotifyClientByCid(cid, Opened(protocol, sid, msgId));
    }

    method HandleTunnelClosed(protocol: nat, cid: Uuid, sid: nat, nodeId: Uuid, msgId: Option<nat>)
      requires Valid()
      modifies this`queues, this`tunnelSessions, this`history
      ensures Valid() && history == old(history) + [RouteClosed(Key(nodeId, sid))]
      ensures queues
        == if Reachable(cid) then old(queues)[cid := old(queues)[cid] + [ClosedFrame(protocol, sid, msgId)]]
        else old(queues)
    {
      var key := Key(nodeId, sid);
      FoldSnoc(history, RouteClosed(key));
      tunnelSessions := tunnelSessions - {key};
      history := history + [RouteClosed(key)];
      var _ := NotifyClientByCid(cid, ClosedFrame(protocol, sid, msgId));
    }

    /** A session-addressed frame goes to the connection the last opening of the session
        named, and nowhere at all if there is no such route. */
    method HandleFrameResponse(sid: nat, nodeId: Uuid, frame: WebFrame) returns (target: Option<Uuid>)
      requires Valid()
      modifies this`queues
      ensures Valid() && forall c: Uuid :: target == Some(c) <==> LastOpened(history, Key(nodeId, sid), c)
      ensures queues == if target.Some? && Reachable(target.value)
                        then old(queues)[target.value := old(queues)[target.value] + [frame]]
                        else old(queues)
    {
      hide Fold, LastOpened;
      target := ConnectionBySid(tunnelSessions, sid, nodeId);
      EntriesNameTheirNode(history);
      forall c: Uuid ensures target == Some(c) <==> LastOpened(history, Key(nodeId, sid), c) {
        RouteIsLastOpened(history, Key(nodeId, sid), c, nodeId);
      }
      if target.Some? {
        var _ := NotifyClientByCid(target.value, frame);
      }
    }

    /** Unregister a node, drop its routes and tell the connections they belonged to.
        A node that is not registered any more leaves every route in place. */
    method DisconnectNode(id: Uuid) returns (count: nat, ghost order: seq<Key>)
      requires Valid()
      modifies this`nodes, this`queues, this`tunnelSessions, this`history
      ensures Valid() && nodes == old(nodes) - {id}
      ensures id !in old(nodes) ==>
        tunnelSessions == old(tunnelSessions) && queues == old(queues) && history == old(history) && count == 0
      ensures id in old(nodes) ==>
        && Sweeps(order, id, old(tunnelSessions))
        && Kept(tunnelSessions, old(tunnelSessions), id)
        && count == Told(order, old(tunnelSessions), Reach())
        && Mailed(queues, old(queues), order, old(tunnelSessions), Reach())
    {
      hide Midway, Mailed, Told, Notices, Fold, Sweeps, Kept, After;
      count, order := 0, [];
      if id !in nodes {
        nodes := nodes - {id};
        return;
      }
      nodes := nodes - {id};
      var routes := tunnelSessions;
      ghost var reach := Reach();
      var left := set key | key in routes && key.node == id;
      RemovalStart(queues, routes, reach, id);
      while left != {}
        invariant Valid() && nodes == old(nodes) - {id} && Reach() == reach
        invariant Midway(left, order, routes, tunnelSessions, id)
        invariant count == Told(order, routes, reach)
        invariant Mailed(queues, old(queues), order, routes, reach)
        decreases left
      {
        var key :| key in left;
        MidwayStep(left, order, routes, tunnelSessions, id, key);
        MailedStep(queues, old(queues), order, routes, reach, key);
        NoticesSnoc(order, key, routes, reach, key.node);
        RemoveSnoc(history, key);
        left := left - {key};
        tunnelSessions := tunnelSessions - {key};
        history := history + [RouteRemoved(key)];
        var ok := NotifyClientByCid(routes[key].0, ClosedFrame(0, key.sid, None));
        if ok {
          count := count + 1;
        }
        order := order + [key];
      }
      RemovalEnd(order, routes, tunnelSessions, id);
    }

    // --- frames from browsers ----------------------------------------------------------------

    /** A push to a node's queue succeeds while its socket is there. */
    predicate Hears(node: Uuid)
      reads this`nodes, this`deaf
    {
      node in nodes && node !in deaf
    }

    method PushToNode(node: Uuid, frame: DownFrame) returns (ok: bool)
      requires Valid()
      modifies this`nodeQueues
      ensures Valid() && ok == Hears(node)
      ensures ok ==> node in old(nodeQueues) && nodeQueues == old(nodeQueues)[node := old(nodeQueues)[node] + [frame]]
      ensures !ok ==> nodeQueues == old(nodeQueues)
    {
      ok := Hears(node);
      if ok {
        nodeQueues := nodeQueues[node := nodeQueues[node] + [frame]];
      }
    }

    /** A browser's command goes to the node it names exactly if the last event about that
        node's session opened it for this browser's connection. */
    method ForwardCommand(cid: Uuid, node: Uuid, sid: nat, cmd: Command) returns (ok: bool)
      requires Valid()
      modifies this`nodeQueues
      ensures Valid() && (ok <==> LastOpened(history, Key(node, sid), cid) && Hears(node))
      ensures ok ==>
        && node in old(nodeQueues)
        && nodeQueues == old(nodeQueues)[node := old(nodeQueues)[node] + [Forward(cid, sid, cmd)]]
      ensures !ok ==> nodeQueues == old(nodeQueues)
    {
      hide Fold, LastOpened;
      var route := NodeByCidAndSid(tunnelSessions, cid, node, sid);
      EntriesNameTheirNode(history);
      RouteIsLastOpened(history, Key(node, sid), cid, node);
      if route.None? {
        return false;
      }
      ok := PushToNode(route.value, Forward(cid, sid, cmd));
    }

    method OpenTunnel(cid: Uuid, node: Uuid, kind: Kind, complete: bool, msgId: Option<nat>)
      requires Valid()
      modifies this`nodeQueues, this`queues
      ensures Valid()
      ensures Hears(node) ==>
        node in old(nodeQueues)
        && nodeQueues == old(nodeQueues)[node := old(nodeQueues)[node] + [DownFrame.OpenTunnel(cid, kind, complete)]]
      ensures !Hears(node) ==> nodeQueues == old(nodeQueues)
      ensures queues == if node !in nodes
        && Reachable(cid) then old(queues)[cid := old(queues)[cid] + [NodeNotFound(node, msgId)]] else old(queues)
    {
      if node !in nodes {
        var _ := NotifyClientByCid(cid, NodeNotFound(node, msgId));
        return;
      }
      var _ := PushToNode(node, DownFrame.OpenTunnel(cid, kind, complete));
    }

    /** The connection goes, and every node that can hear is told once.  Routes stay. */
    method DisconnectWebClient(cid: Uuid)
      requires Valid()
      modifies this`connections, this`nodeQueues
      ensures Valid() && connections == old(connections) - {cid}
      ensures nodeQueues.Keys == old(nodeQueues).Keys
      ensures forall n :: n in nodeQueues ==>
        nodeQueues[n] == old(nodeQueues)[n] + (if Hears(n) then [ConnectionDisconnect(cid)] else [])
    {
      hide Fold;
      connections := connections - {cid};
      var left := nodes.Keys;
      while left != {}
        invariant Valid() && connections == old(connections) - {cid}
        invariant left <= nodes.Keys && nodeQueues.Keys == old(nodeQueues).Keys
        invariant forall n :: n in nodeQueues ==>
          nodeQueues[n] == old(nodeQueues)[n] + (if n !in left && Hears(n) then [ConnectionDisconnect(cid)] else [])
        decreases left
      {
        var n :| n in left;
        left := left - {n};
        var _ := PushToNode(n, ConnectionDisconnect(cid));
      }
    }
  }
}
