/** How long a node stays registered, when its routes outlive it, and what the end of a socket
    cleans up. */
module RelayRegistration {
  import opened Protocol
  import opened Pipes
  import opened RelayModel
  import opened RelayInvariants
  import opened RelayTheorems
  import RelayEmissionSteps

  // --- the server's columns -----------------------------------------------------------------

  function NodesAfter(s: State, e: Event): map<Uuid, nat>
    requires Shape(s) && Enabled(s, e)
  {
    match e
    case Register(n) => s.nodes[n := |s.owner|]
    case ServeEnd(k) => s.nodes - {s.owner[k]}
    case StaleNode(n) => s.nodes - {n}
    case _ => s.nodes
  }

  function RoutesAfter(s: State, e: Event): map<Key, (Uuid, Uuid)>
    requires Shape(s) && Enabled(s, e)
  {
    match e
    case ServeFrame(k) => Route(s.routes, s.owner[k], s.up[k].wire[0].frame).0
    case SweepOne(k) => s.routes - {s.reader[k].pending[0].0}
    case _ => s.routes
  }

  /** The reader whose step the event is. */
  function ReaderOf(e: Event): Option<nat> {
    match e
    case ServeFrame(k) => Some(k)
    case ServeNotify(k, _) => Some(k)
    case ServeEnd(k) => Some(k)
    case Collect(k, _) => Some(k)
    case CollectEnd(k) => Some(k)
    case SweepOne(k) => Some(k)
    case Inform(k, _) => Some(k)
    case SweepEnd(k) => Some(k)
    case _ => None
  }

  predicate OfReader(e: Event, k: nat) {
    ReaderOf(e) == Some(k)
  }

  ghost predicate ColumnsAfter(s: State, e: Event, t: State)
    requires Shape(s) && Enabled(s, e)
  {
    && t.nodes == NodesAfter(s, e)
    && t.routes == RoutesAfter(s, e)
    && t.owner == (if e.Register? then s.owner + [e.node] else s.owner)
    && (if ReaderOf(e).Some? then OnlyReader(s, t, ReaderOf(e).value) else s.reader <= t.reader)
  }

  lemma ColumnsOutside(s: State, e: Event)
    requires Shape(s) && Enabled(s, e) && (!ServerStep(e) || e.StaleConnection?)
    ensures SocketFrame(s, Apply(s, e))
  {
    hide Shape, Enabled, SocketFrame;
    hide DoAccept, DoWebOpen, DoWebRoute, DoWebResolve, DoWebPush, DoWebLeave, DoWebTell, DoWebGone,
         DoRegister, DoServeFrame, DoServeNotify, DoServeEnd, DoCollect, DoCollectEnd, DoSweepOne, DoInform,
         DoSweepEnd, DoStaleNode, DoStaleConnection, DoMoveDown, DoMoveUp, DoLoseUp, DoAgentRead, DoAgentInsert,
         DoAgentDeliver, DoAgentClose, DoAgentCloseEnd, DoAgentDrop, DoEmit, DoConsume;
  }

  lemma SameSizes(s: State)
    requires Shape(s)
    ensures |s.reader| == |s.owner|
  {
  }

  lemma ColumnsRegister(s: State, n: Uuid)
    requires Shape(s)
    ensures ColumnsAfter(s, Register(n), DoRegister(s, n))
  {
  }

  lemma ServeFrameColumns(s: State, k: nat)
    requires Shape(s) && Enabled(s, ServeFrame(k))
    ensures ColumnsAfter(s, ServeFrame(k), DoServeFrame(s, k))
  {
    hide Shape, DoServeFrame, Route;
  }

  lemma ServeNotifyColumns(s: State, k: nat, ok: bool)
    requires Shape(s) && Enabled(s, ServeNotify(k, ok))
    ensures ColumnsAfter(s, ServeNotify(k, ok), DoServeNotify(s, k, ok))
  {
    hide Shape, DoServeNotify, Route;
  }

  lemma ServeEndColumns(s: State, k: nat)
    requires Shape(s) && Enabled(s, ServeEnd(k))
    ensures ColumnsAfter(s, ServeEnd(k), DoServeEnd(s, k))
  {
    hide Shape, DoServeEnd, Route;
  }

  lemma CollectColumns(s: State, k: nat, key: Key)
    requires Shape(s) && Enabled(s, Collect(k, key))
    ensures ColumnsAfter(s, Collect(k, key), DoCollect(s, k, key))
  {
    hide Shape, DoCollect, Route;
  }

  lemma CollectEndColumns(s: State, k: nat)
    requires Shape(s) && Enabled(s, CollectEnd(k))
    ensures ColumnsAfter(s, CollectEnd(k), DoCollectEnd(s, k))
  {
    hide Shape, DoCollectEnd, Route;
  }

  lemma SweepOneColumns(s: State, k: nat)
    requires Shape(s) && Enabled(s, SweepOne(k))
    ensures ColumnsAfter(s, SweepOne(k), DoSweepOne(s, k))
  {
    hide Shape, DoSweepOne, Route;
  }

  lemma InformColumns(s: State, k: nat, ok: bool)
    requires Shape(s) && Enabled(s, Inform(k, ok))
    ensures ColumnsAfter(s, Inform(k, ok), DoInform(s, k, ok))
  {
    hide Shape, DoInform, Route;
  }

  lemma SweepEndColumns(s: State, k: nat)
    requires Shape(s) && Enabled(s, SweepEnd(k))
    ensures ColumnsAfter(s, SweepEnd(k), DoSweepEnd(s, k))
  {
    hide Shape, DoSweepEnd, Route;
  }

  lemma StaleColumns(s: State, n: Uuid)
    requires Shape(s)
    ensures ColumnsAfter(s, StaleNode(n), DoStaleNode(s, n))
  {
    hide Shape, DoStaleNode;
  }

  lemma ColumnsInside(s: State, e: Event)
    requires Shape(s) && Enabled(s, e) && ServerStep(e) && !e.StaleConnection?
    ensures ColumnsAfter(s, e, Apply(s, e))
  {
    hide Shape, Enabled, ColumnsAfter, Route, Frame, OnlyReader, SameTables, SocketFrame;
    hide DoAccept, DoWebOpen, DoWebRoute, DoWebResolve, DoWebPush, DoWebLeave, DoWebTell, DoWebGone,
         DoRegister, DoServeFrame, DoServeNotify, DoServeEnd, DoCollect, DoCollectEnd, DoSweepOne, DoInform,
         DoSweepEnd, DoStaleNode, DoStaleConnection, DoMoveDown, DoMoveUp, DoLoseUp, DoAgentRead, DoAgentInsert,
         DoAgentDeliver, DoAgentClose, DoAgentCloseEnd, DoAgentDrop, DoEmit, DoConsume;
    match e
    case Register(n) => ColumnsRegister(s, n);
    case ServeFrame(k) => ServeFrameColumns(s, k);
    case ServeNotify(k, ok) => ServeNotifyColumns(s, k, ok);
    case ServeEnd(k) => ServeEndColumns(s, k);
    case Collect(k, key) => CollectColumns(s, k, key);
    case CollectEnd(k) => CollectEndColumns(s, k);
    case SweepOne(k) => SweepOneColumns(s, k);
    case Inform(k, ok) => InformColumns(s, k, ok);
    case SweepEnd(k) => SweepEndColumns(s, k);
    case StaleNode(n) => StaleColumns(s, n);
  }

  lemma Columns(s: State, e: Event)
    requires Shape(s) && Enabled(s, e)
    ensures ColumnsAfter(s, e, Apply(s, e))
  {
    if ServerStep(e) && !e.StaleConnection? {
      ColumnsInside(s, e);
    } else {
      ColumnsOutside(s, e);
      hide Apply, Shape, Enabled;
    }
  }

  // --- registrations -----------------------------------------------------------------------

  /** The stale sweep drops node `n`, or one of its sockets, newest or not, ends. */
  predicate Unregisters(e: Event, n: Uuid, owner: seq<Uuid>) {
    e == StaleNode(n) || (e.ServeEnd? && e.k < |owner| && owner[e.k] == n)
  }

  lemma NodeStep(s: State, e: Event, n: Uuid)
    requires Shape(s) && Enabled(s, e) && e != Register(n)
    ensures
      var nodes := Apply(s, e).nodes;
      && (n in nodes <==> n in s.nodes && !Unregisters(e, n, s.owner))
      && (n in nodes ==> nodes[n] == s.nodes[n])
  {
    Columns(s, e);
    hide Shape, Apply, RoutesAfter;
  }

  /** A registration survives exactly as long as the stale sweep does not drop the node and
      none of the node's sockets ends, be it an older one. */
  lemma {:induction false} RegistrationSurvivesIff(s: State, more: seq<Event>, t: State, n: Uuid)
    requires Run(s, more, t) && n in s.nodes && Register(n) !in more
    ensures n in t.nodes <==> forall i :: 0 <= i < |more| ==> !Unregisters(more[i], n, t.owner)
    ensures n in t.nodes ==> t.nodes[n] == s.nodes[n]
    decreases |more|
  {
    hide Shape, Enabled, Apply;
    if more != [] {
      var m, rest := Apply(s, more[0]), more[1..];
      assert more[0] in more && forall e :: e in rest ==> e in more;
      NodeStep(s, more[0], n);
      OwnersGrow(m, rest, t);
      SameOwner(s, more[0], n, t);
      if n in m.nodes {
        RegistrationSurvivesIff(m, rest, t, n);
        assert forall i :: 0 <= i < |rest| ==> rest[i] == more[i + 1];
        assert forall i :: 0 < i < |more| ==> more[i] == rest[i - 1];
      } else {
        StaysAway(m, rest, t, n);
        assert Unregisters(more[0], n, t.owner);
      }
    }
  }

  lemma {:induction false} OwnersGrow(s: State, more: seq<Event>, t: State)
    requires Run(s, more, t)
    ensures s.owner <= t.owner
    decreases |more|
  {
    hide Shape, Enabled, Apply;
    if more != [] {
      Columns(s, more[0]);
      OwnersGrow(Apply(s, more[0]), more[1..], t);
    }
  }

  lemma SameOwner(s: State, e: Event, n: Uuid, t: State)
    requires Shape(s) && Enabled(s, e) && Apply(s, e).owner <= t.owner
    ensures Unregisters(e, n, s.owner) <==> Unregisters(e, n, t.owner)
  {
    Columns(s, e);
    hide Shape, Apply;
  }

  lemma {:induction false} StaysAway(s: State, more: seq<Event>, t: State, n: Uuid)
    requires Run(s, more, t) && n !in s.nodes && Register(n) !in more
    ensures n !in t.nodes
    decreases |more|
  {
    hide Shape, Enabled, Apply;
    if more != [] {
      assert more[0] in more && forall e :: e in more[1..] ==> e in more;
      NodeStep(s, more[0], n);
      StaysAway(Apply(s, more[0]), more[1..], t, n);
    }
  }

  // --- routes of unregistered nodes ---------------------------------------------------------------

  ghost predicate RoutedRegistered(routes: map<Key, (Uuid, Uuid)>, nodes: map<Uuid, nat>) {
    forall key :: key in routes ==> key.node in nodes
  }

  /** The three ways a node that is not registered comes to have a route: the stale sweep drops
      a routed node, a socket of a routed node ends, or an announcement arrives on a socket
      whose node is not registered any more. */
  ghost predicate Orphans(s: State, e: Event)
    requires Shape(s) && Enabled(s, e)
  {
    || (e.StaleNode? && e.node in s.nodes && RoutesOf(s.routes, e.node) != {})
    || (e.ServeEnd? && s.owner[e.k] in s.nodes && RoutesOf(s.routes, s.owner[e.k]) != {})
    || (e.ServeFrame? && s.up[e.k].wire[0].frame.TunnelOpened? && s.owner[e.k] !in s.nodes)
  }

  lemma FewerNodes(routes: map<Key, (Uuid, Uuid)>, nodes: map<Uuid, nat>, n: Uuid)
    requires RoutedRegistered(routes, nodes)
    ensures RoutedRegistered(routes, nodes - {n}) <==> RoutesOf(routes, n) == {}
  {
    if RoutesOf(routes, n) != {} {
      var key :| key in RoutesOf(routes, n);
      assert key in routes && key.node !in nodes - {n};
    } else {
      forall key | key in routes ensures key.node in nodes - {n} {
        assert key !in RoutesOf(routes, n);
      }
    }
  }

  lemma RouteOrphans(routes: map<Key, (Uuid, Uuid)>, nodes: map<Uuid, nat>, n: Uuid, frame: UpFrame)
    requires RoutedRegistered(routes, nodes)
    ensures RoutedRegistered(Route(routes, n, frame).0, nodes) <==> !(frame.TunnelOpened? && n !in nodes)
  {
    if frame.TunnelOpened? {
      assert Key(n, frame.sid) in Route(routes, n, frame).0;
    }
  }

  lemma StaleOrphans(s: State, n: Uuid)
    requires Shape(s) && RoutedRegistered(s.routes, s.nodes)
    ensures
      var t := DoStaleNode(s, n);
      RoutedRegistered(t.routes, t.nodes) <==> !(n in s.nodes && RoutesOf(s.routes, n) != {})
  {
    FewerNodes(s.routes, s.nodes, n);
    hide Shape, RoutesOf, RoutedRegistered;
    if n !in s.nodes {
      assert s.nodes - {n} == s.nodes;
    }
  }

  lemma EndOrphans(s: State, k: nat)
    requires Shape(s) && Enabled(s, ServeEnd(k)) && RoutedRegistered(s.routes, s.nodes)
    ensures
      var t := DoServeEnd(s, k);
      RoutedRegistered(t.routes, t.nodes) <==> !(s.owner[k] in s.nodes && RoutesOf(s.routes, s.owner[k]) != {})
  {
    FewerNodes(s.routes, s.nodes, s.owner[k]);
    hide Shape, RoutesOf, RoutedRegistered, DoServeEnd;
    if s.owner[k] !in s.nodes {
      assert s.nodes - {s.owner[k]} == s.nodes;
    }
  }

  lemma FrameOrphans(s: State, k: nat)
    requires Shape(s) && Enabled(s, ServeFrame(k)) && RoutedRegistered(s.routes, s.nodes)
    ensures
      var t := DoServeFrame(s, k);
      RoutedRegistered(t.routes, t.nodes) <==> !(s.up[k].wire[0].frame.TunnelOpened? && s.owner[k] !in s.nodes)
  {
    RouteOrphans(s.routes, s.nodes, s.owner[k], s.up[k].wire[0].frame);
    hide Shape, Route, RoutedRegistered, DoServeFrame;
  }

  lemma ElsewhereNoOrphans(s: State, e: Event)
    requires Shape(s) && Enabled(s, e) && RoutedRegistered(s.routes, s.nodes)
    requires !e.StaleNode? && !e.ServeEnd? && !e.ServeFrame?
    ensures RoutedRegistered(Apply(s, e).routes, Apply(s, e).nodes)
  {
    Columns(s, e);
    if e.Register? {
      MoreNodes(s.routes, s.nodes, e.node, |s.owner|);
    }
    if e.SweepOne? {
      FewerRoutes(s.routes, s.nodes, s.reader[e.k].pending[0].0);
    }
    hide Shape, Enabled, Apply, RoutedRegistered;
  }

  /** If every routed node is registered, exactly those three steps end that. */
  lemma OrphansIff(s: State, e: Event)
    requires Shape(s) && Enabled(s, e) && RoutedRegistered(s.routes, s.nodes)
    ensures RoutedRegistered(Apply(s, e).routes, Apply(s, e).nodes) <==> !Orphans(s, e)
  {
    if e.StaleNode? {
      StaleOrphans(s, e.node);
      hide Shape, Enabled, RoutesOf, RoutedRegistered, DoStaleNode;
    } else if e.ServeEnd? {
      EndOrphans(s, e.k);
      hide Shape, Enabled, RoutesOf, RoutedRegistered, DoServeEnd;
    } else if e.ServeFrame? {
      FrameOrphans(s, e.k);
      hide Shape, Enabled, RoutesOf, RoutedRegistered, DoServeFrame;
    } else {
      ElsewhereNoOrphans(s, e);
      hide Shape, Enabled, Apply, RoutedRegistered;
    }
  }

  lemma MoreNodes(routes: map<Key, (Uuid, Uuid)>, nodes: map<Uuid, nat>, n: Uuid, k: nat)
    requires RoutedRegistered(routes, nodes)
    ensures RoutedRegistered(routes, nodes[n := k])
  {
  }

  lemma FewerRoutes(routes: map<Key, (Uuid, Uuid)>, nodes: map<Uuid, nat>, key: Key)
    requires RoutedRegistered(routes, nodes)
    ensures RoutedRegistered(routes - {key}, nodes)
  {
  }

  /** Every routed node is registered in every state of the run. */
  ghost predicate AlwaysRegistered(s: State, es: seq<Event>)
    decreases |es|
  {
    && RoutedRegistered(s.routes, s.nodes)
    && (es != [] && Shape(s) && Enabled(s, es[0]) ==> AlwaysRegistered(Apply(s, es[0]), es[1..]))
  }

  ghost predicate NeverOrphans(s: State, es: seq<Event>)
    decreases |es|
  {
    es != [] && Shape(s) && Enabled(s, es[0]) ==> !Orphans(s, es[0]) && NeverOrphans(Apply(s, es[0]), es[1..])
  }

  /** In a run every routed node is registered at all times if and only if the run holds none
      of the three steps. */
  lemma {:induction false} AlwaysRegisteredIff(s: State, es: seq<Event>, t: State)
    requires Run(s, es, t) && RoutedRegistered(s.routes, s.nodes)
    ensures AlwaysRegistered(s, es) <==> NeverOrphans(s, es)
    decreases |es|
  {
    hide Shape, Enabled, Apply, Orphans, RoutedRegistered;
    if es != [] {
      OrphansIff(s, es[0]);
      if !Orphans(s, es[0]) {
        AlwaysRegisteredIff(Apply(s, es[0]), es[1..], t);
      } else {
        NotAlways(Apply(s, es[0]), es[1..]);
      }
    }
  }

  lemma NotAlways(s: State, es: seq<Event>)
    requires !RoutedRegistered(s.routes, s.nodes)
    ensures !AlwaysRegistered(s, es)
  {
  }

  // --- the end of a socket -----------------------------------------------------------------------------

  predicate Listed(keys: seq<(Key, Uuid)>, key: Key) {
    exists i :: 0 <= i < |keys| && keys[i].0 == key
  }

  /** A reader that is cleaning up will still remove the route. */
  predicate Awaits(pc: NodePc, key: Key) {
    match pc
    case Collecting(picked, due) => key in due || Listed(picked, key)
    case Sweeping(pending) => Listed(pending, key)
    case Informing(_, _, rest) => Listed(rest, key)
    case _ => false
  }

  predicate Ending(pc: NodePc) {
    pc.Collecting? || pc.Sweeping? || pc.Informing? || pc.Closed?
  }

  /** Reader `k` is cleaning up the routes `doomed`, all of them heard of long ago. */
  ghost predicate CleansUp(s: State, k: nat, doomed: set<Key>) {
    forall key :: key in doomed ==> key in s.outbound && 0 < s.outbound[key].heard && Kept(s, k, key)
  }

  /** A frame can bring back no route of a session the server has heard of. */
  lemma NothingReturns(s: State, k: nat, key: Key)
    requires Inv(s) && Enabled(s, ServeFrame(k)) && key in s.outbound && 0 < s.outbound[key].heard
    ensures key in RoutesAfter(s, ServeFrame(k)) ==> key in s.routes
  {
    hide Addressing, Intake, ReadersOk, InboxesOk, FreshOk, Conserved;
    PopFlows(s.up, k);
    RelayEmissionSteps.FlowAt(Flows(s.up), s.owner, s.born, s.outbound, k, 0);
    var x := s.up[k].wire[0];
    if x.source.Session? {
      var own := Key(s.owner[k], x.source.sid);
      assert ProducedOk(s.born[own], own.sid, s.phase[own], s.outbound[own]);
    }
  }

  lemma ListedSnoc(keys: seq<(Key, Uuid)>, x: (Key, Uuid), key: Key)
    ensures Listed(keys + [x], key) <==> Listed(keys, key) || x.0 == key
  {
    if Listed(keys, key) {
      var i :| 0 <= i < |keys| && keys[i].0 == key;
      assert (keys + [x])[i] == keys[i];
    }
    assert (keys + [x])[|keys|] == x;
  }

  lemma ListedTail(keys: seq<(Key, Uuid)>, key: Key)
    requires keys != [] && Listed(keys, key)
    ensures keys[0].0 == key || Listed(keys[1..], key)
  {
    var i :| 0 <= i < |keys| && keys[i].0 == key;
    if i > 0 {
      assert keys[1..][i - 1] == keys[i];
    }
  }

  /** The route is gone, or the reader will still remove it. */
  predicate Kept(s: State, k: nat, key: Key) {
    && k < |s.reader| && Ending(s.reader[k])
    && (key in s.routes ==> Awaits(s.reader[k], key))
  }

  lemma CollectKeeps(s: State, k: nat, picked: Key, key: Key)
    requires Shape(s) && Enabled(s, Collect(k, picked)) && Kept(s, k, key)
    ensures Kept(DoCollect(s, k, picked), k, key)
  {
    hide Listed;
    ListedSnoc(s.reader[k].picked, (picked, s.routes[picked].0), key);
  }

  lemma CollectEndKeeps(s: State, k: nat, key: Key)
    requires Shape(s) && Enabled(s, CollectEnd(k)) && Kept(s, k, key)
    ensures Kept(DoCollectEnd(s, k), k, key)
  {
    hide Listed;
  }

  lemma SweepOneKeeps(s: State, k: nat, key: Key)
    requires Shape(s) && Enabled(s, SweepOne(k)) && Kept(s, k, key)
    ensures Kept(DoSweepOne(s, k), k, key)
  {
    hide Listed;
    if Listed(s.reader[k].pending, key) {
      ListedTail(s.reader[k].pending, key);
    }
  }

  lemma InformKeeps(s: State, k: nat, ok: bool, key: Key)
    requires Shape(s) && Enabled(s, Inform(k, ok)) && Kept(s, k, key)
    ensures Kept(DoInform(s, k, ok), k, key)
  {
    hide Listed;
  }

  lemma SweepEndKeeps(s: State, k: nat, key: Key)
    requires Shape(s) && Enabled(s, SweepEnd(k)) && Kept(s, k, key)
    ensures Kept(DoSweepEnd(s, k), k, key)
  {
    NotListed(key);
    hide Listed;
  }

  /** Each step of the reader itself keeps the promise for one key. */
  lemma OwnStep(s: State, e: Event, k: nat, key: Key)
    requires Shape(s) && Enabled(s, e) && OfReader(e, k) && Kept(s, k, key)
    ensures Kept(Apply(s, e), k, key)
  {
    match e
    case Collect(_, picked) =>
      CollectKeeps(s, k, picked, key);
      hide Kept, Shape, DoCollect, Enabled;
    case CollectEnd(_) =>
      CollectEndKeeps(s, k, key);
      hide Kept, Shape, DoCollectEnd, Enabled;
    case SweepOne(_) =>
      SweepOneKeeps(s, k, key);
      hide Kept, Shape, DoSweepOne, Enabled;
    case Inform(_, ok) =>
      InformKeeps(s, k, ok, key);
      hide Kept, Shape, DoInform, Enabled;
    case SweepEnd(_) =>
      SweepEndKeeps(s, k, key);
      hide Kept, Shape, DoSweepEnd, Enabled;
    case _ =>
      SameSizes(s);
      hide Shape, Apply, Awaits;
  }

  lemma NotListed(key: Key)
    ensures !Listed([], key)
  {
  }

  lemma ReaderStays(s: State, e: Event, t: State, k: nat)
    requires Shape(s) && Enabled(s, e) && ColumnsAfter(s, e, t) && !OfReader(e, k) && k < |s.reader|
    ensures k < |t.reader| && t.reader[k] == s.reader[k]
  {
    hide Shape, Enabled, NodesAfter, RoutesAfter;
  }

  lemma RoutesStay(s: State, e: Event, t: State, key: Key)
    requires Shape(s) && Enabled(s, e) && ColumnsAfter(s, e, t)
    requires e.ServeFrame? && key in RoutesAfter(s, e) ==> key in s.routes
    ensures key in t.routes ==> key in s.routes
  {
    hide Shape, Enabled, NodesAfter, OnlyReader, Route;
  }

  lemma KeptByOthers(s: State, e: Event, k: nat, key: Key)
    requires Inv(s) && Enabled(s, e) && !OfReader(e, k) && Kept(s, k, key)
    requires key in s.outbound && 0 < s.outbound[key].heard
    ensures Kept(Apply(s, e), k, key)
  {
    hide Addressing, Emission, Intake, Shape, Enabled, Apply, Awaits, ColumnsAfter, RoutesAfter, Ending;
    Columns(s, e);
    ReaderStays(s, e, Apply(s, e), k);
    if e.ServeFrame? {
      NothingReturns(s, e.k, key);
    }
    RoutesStay(s, e, Apply(s, e), key);
  }

  lemma CleanStep(s: State, e: Event, k: nat, doomed: set<Key>)
    requires Inv(s) && Enabled(s, e) && CleansUp(s, k, doomed)
    ensures CleansUp(Apply(s, e), k, doomed)
  {
    hide Addressing, Emission, Intake, Shape, Enabled, Apply, Kept, MoreMail, StillQuiet;
    StepProgress(s, e);
    var t := Apply(s, e);
    forall key | key in doomed ensures key in t.outbound && 0 < t.outbound[key].heard && Kept(t, k, key) {
      if OfReader(e, k) {
        OwnStep(s, e, k, key);
      } else {
        KeptByOthers(s, e, k, key);
      }
    }
  }

  lemma {:induction false} CleanRun(s: State, more: seq<Event>, t: State, k: nat, doomed: set<Key>)
    requires Inv(s) && Run(s, more, t) && CleansUp(s, k, doomed)
    ensures CleansUp(t, k, doomed)
    decreases |more|
  {
    hide Addressing, Emission, Intake, Apply, CleansUp, Enabled;
    if more != [] {
      InvStep(s, more[0]);
      CleanStep(s, more[0], k, doomed);
      CleanRun(Apply(s, more[0]), more[1..], t, k, doomed);
    }
  }

  /** The end of a registered node's socket cleans up under every interleaving: when its reader
      is done, no route the node had at the end of the socket is left, and none of them ever
      returns. */
  lemma EndLeavesNoRoute(es: seq<Event>, s: State, k: nat, more: seq<Event>, t: State, key: Key)
    requires Run(Init(), es, s) && Shape(s) && Enabled(s, ServeEnd(k)) && s.owner[k] in s.nodes
    requires Run(Apply(s, ServeEnd(k)), more, t) && k < |t.reader| && t.reader[k].Closed?
    requires key in s.routes && key.node == s.owner[k]
    ensures key !in t.routes
  {
    hide Run, Addressing, Emission, Intake;
    InvInit();
    InvRun(Init(), es, s);
    var doomed := RoutesOf(s.routes, s.owner[k]);
    forall key | key in doomed ensures key in s.outbound && 0 < s.outbound[key].heard {
      OpenedRoutes(s, key);
    }
    InvStep(s, ServeEnd(k));
    EndStarts(s, k, doomed);
    CleanRun(Apply(s, ServeEnd(k)), more, t, k, doomed);
    assert key in doomed;
  }

  lemma EndStarts(s: State, k: nat, doomed: set<Key>)
    requires Shape(s) && Enabled(s, ServeEnd(k)) && s.owner[k] in s.nodes && doomed == RoutesOf(s.routes, s.owner[k])
    requires forall key :: key in doomed ==> key in s.outbound && 0 < s.outbound[key].heard
    ensures CleansUp(Apply(s, ServeEnd(k)), k, doomed)
  {
    hide Listed;
  }
}
