/** What every reachable state of the relay satisfies.

    Each predicate takes only the columns it speaks about, so a step that leaves those
    columns alone keeps it for free. */
module RelayInvariants {
  import opened Protocol
  import opened Pipes
  import opened RelayModel

  // --- addressing ---------------------------------------------------------------

  /** A node's table entry is the newest socket registered for that node. */
  ghost predicate NodesOk(nodes: map<Uuid, nat>, owner: seq<Uuid>) {
    forall n :: n in nodes ==>
      && nodes[n] < |owner| && owner[nodes[n]] == n
      && forall j :: nodes[n] < j < |owner| ==> owner[j] != n
  }

  /** A session belongs to the connection whose OpenTunnel created it. */
  ghost predicate BornOk(born: map<Key, Birth>, owner: seq<Uuid>, counter: map<Uuid, nat>, cids: set<Uuid>) {
    forall key :: key in born ==>
      && born[key].creator == born[key].cid && born[key].cid in cids
      && born[key].socket < |owner| && owner[born[key].socket] == key.node
      && key.sid < Counter(counter, key.node)
  }

  /** The TunnelClosed of a session has been handled by the server. */
  predicate Retired(ob: Outbound) {
    0 < ob.heard <= |ob.produced| && ob.produced[ob.heard - 1].TunnelClosed?
  }

  /** The server has heard the announcement of a session that made one. */
  predicate WasOpened(ob: Outbound) {
    0 < ob.heard <= |ob.produced| && ob.produced[0].TunnelOpened?
  }

  ghost predicate RoutesOk(routes: map<Key, (Uuid, Uuid)>, born: map<Key, Birth>, outbound: map<Key, Outbound>) {
    forall key :: key in routes ==>
      && key in born && routes[key] == (born[key].cid, key.node)
      && key in outbound && WasOpened(outbound[key]) && !Retired(outbound[key])
  }

  /** A session of connection `c` exists under this key. */
  predicate Owns(c: Uuid, key: Key, born: map<Key, Birth>) {
    key in born && born[key].cid == c
  }

  ghost predicate WebOk(web: map<Uuid, WebPc>, owner: seq<Uuid>, born: map<Key, Birth>) {
    forall c :: c in web ==> WebPcOk(c, web[c], owner, born)
  }

  predicate WebPcOk(c: Uuid, pc: WebPc, owner: seq<Uuid>, born: map<Key, Birth>) {
    match pc
    case Routed(n, sid, _) => Owns(c, Key(n, sid), born)
    case Holding(k, frame) =>
      && k < |owner| && frame.cid == c && !frame.ConnectionDisconnect?
      && (frame.Forward? ==> Owns(c, Key(owner[k], frame.sid), born) && born[Key(owner[k], frame.sid)].socket <= k)
    case _ => true
  }

  ghost predicate DownOk(flows: seq<seq<Sent>>, owner: seq<Uuid>, born: map<Key, Birth>, cids: set<Uuid>) {
    |flows| == |owner| &&
    forall k, i :: 0 <= k < |flows| && 0 <= i < |flows[k]| ==> SentOk(flows[k][i], owner[k], born, cids)
  }

  predicate SentOk(x: Sent, node: Uuid, born: map<Key, Birth>, cids: set<Uuid>) {
    && x.from == x.frame.cid && x.from in cids
    && (x.frame.Forward? ==> Owns(x.from, Key(node, x.frame.sid), born))
  }

  ghost predicate AgentsOk(agent: seq<AgentPc>, owner: seq<Uuid>, born: map<Key, Birth>, inserted: set<Key>) {
    |agent| == |owner| &&
    forall k :: 0 <= k < |agent| ==> AgentPcOk(k, agent[k], owner[k], born, inserted)
  }

  predicate AgentPcOk(k: nat, pc: AgentPc, node: Uuid, born: map<Key, Birth>, inserted: set<Key>) {
    match pc
    case Inserting(cid, sid, kind) =>
      var key := Key(node, sid);
      Owns(cid, key, born) && born[key].socket == k && born[key].kind == kind && key !in inserted
    case Delivering(got, sid) =>
      var key := Key(node, sid);
      Owns(got.from, key, born) && born[key].socket == k && Takes(born[key].kind, got.cmd) && key in inserted
    case _ => true
  }

  ghost predicate HandlesOk(handles: seq<map<(Uuid, nat), Kind>>, owner: seq<Uuid>, born: map<Key, Birth>,
                            inserted: set<Key>) {
    |handles| == |owner| &&
    forall k, h :: 0 <= k < |handles| && h in handles[k] ==>
      var key := Key(owner[k], h.1);
      Owns(h.0, key, born) && born[key].socket == k && born[key].kind == handles[k][h] && key in inserted
  }

  /** A session whose handle is not stored yet keeps its agent's reader busy. */
  ghost predicate InsertedOk(born: map<Key, Birth>, inserted: set<Key>, agent: seq<AgentPc>) {
    && (forall key :: key in inserted ==> key in born)
    && forall key :: key in born && key !in inserted ==>
      born[key].socket < |agent| && agent[born[key].socket] == Inserting(born[key].cid, key.sid, born[key].kind)
  }

  ghost predicate From(gots: seq<Got>, c: Uuid) {
    forall i :: 0 <= i < |gots| ==> gots[i].from == c
  }

  ghost predicate TagsOk(inbound: map<Key, Inbound>, born: map<Key, Birth>) {
    forall key :: key in inbound ==>
      key in born && From(inbound[key].stdin, born[key].creator) && From(inbound[key].consumed, born[key].creator)
  }

  // --- frames of a session --------------------------------------------------------

  predicate Addressed(b: Birth, sid: nat, frame: UpFrame) {
    match frame
    case TunnelOpened(cid, s) => cid == b.cid && s == sid
    case TunnelClosed(cid, s) => cid == b.cid && s == sid
    case ToSession(s, _) => s == sid
    case ToConnection(_, _) => false
  }

  /** TunnelOpened only as the first frame, TunnelClosed only as the last one. */
  ghost predicate ProducedOk(b: Birth, sid: nat, phase: Phase, ob: Outbound) {
    && ob.heard <= |ob.produced|
    && (phase == Starting <==> ob.produced == [])
    && (phase == Live ==> ob.produced[0].TunnelOpened?)
    && (forall i :: 0 <= i < |ob.produced| ==>
          && Addressed(b, sid, ob.produced[i])
          && (ob.produced[i].TunnelOpened? ==> i == 0)
          && (ob.produced[i].TunnelClosed? ==>
                i == |ob.produced| - 1 && i > 0 && phase == Ended && ob.produced[0].TunnelOpened?))
  }

  ghost predicate OutboundOk(outbound: map<Key, Outbound>, born: map<Key, Birth>, phase: map<Key, Phase>) {
    forall key :: key in outbound ==>
      key in born && key in phase && ProducedOk(born[key], key.sid, phase[key], outbound[key])
  }

  ghost predicate UpOk(flows: seq<seq<Emitted>>, owner: seq<Uuid>, born: map<Key, Birth>,
                       outbound: map<Key, Outbound>) {
    |flows| == |owner| &&
    forall k :: 0 <= k < |flows| ==> FlowOk(flows[k], k, owner[k], born, outbound)
  }

  predicate SameSession(a: Source, b: Source) {
    a.Session? && b.Session? && a.sid == b.sid
  }

  predicate SameOrigin(a: Delivery, b: Delivery) {
    a.FromSession? && b.FromSession? && a.node == b.node && a.sid == b.sid
  }

  /** If two deliveries come from one session, the first was produced earlier. */
  predicate Before(a: Delivery, b: Delivery) {
    SameOrigin(a, b) ==> a.index < b.index
  }

  /** A socket carries frames of its own sessions, each session's in order, none of
      them behind what the server has heard. */
  ghost predicate FlowOk(flow: seq<Emitted>, k: nat, node: Uuid, born: map<Key, Birth>, outbound: map<Key, Outbound>) {
    && (forall i :: 0 <= i < |flow| ==> EmittedOk(flow[i], k, node, born, outbound))
    && (forall i, j :: 0 <= i < j < |flow| && SameSession(flow[i].source, flow[j].source) ==>
          flow[i].source.index < flow[j].source.index)
  }

  predicate EmittedOk(x: Emitted, k: nat, node: Uuid, born: map<Key, Birth>, outbound: map<Key, Outbound>) {
    match x.source
    case Reader => x.frame.ToConnection?
    case Session(sid, index) =>
      var key := Key(node, sid);
      && key in born && born[key].socket == k && key in outbound
      && outbound[key].heard <= index < |outbound[key].produced|
      && outbound[key].produced[index] == x.frame
  }

  ghost predicate ReadersOk(reader: seq<NodePc>, owner: seq<Uuid>, born: map<Key, Birth>,
                            outbound: map<Key, Outbound>) {
    |reader| == |owner| &&
    forall k :: 0 <= k < |reader| ==> NodePcOk(reader[k], k, owner[k], born, outbound)
  }

  ghost predicate PickedOk(picked: seq<(Key, Uuid)>, node: Uuid, born: map<Key, Birth>) {
    forall i :: 0 <= i < |picked| ==> Owns(picked[i].1, picked[i].0, born) && picked[i].0.node == node
  }

  ghost predicate NodePcOk(pc: NodePc, k: nat, node: Uuid, born: map<Key, Birth>, outbound: map<Key, Outbound>) {
    match pc
    case Notifying(to, what) => PendingOk(to, what, k, node, born, outbound)
    case Collecting(picked, _) => PickedOk(picked, node, born)
    case Sweeping(pending) => PickedOk(pending, node, born)
    case Informing(key, to, rest) => Owns(to, key, born) && key.node == node && PickedOk(rest, node, born)
    case _ => true
  }

  /** The frame a server reader holds is the last one it heard from that session. */
  predicate PendingOk(to: Uuid, what: Delivery, k: nat, node: Uuid, born: map<Key, Birth>,
                      outbound: map<Key, Outbound>) {
    match what
    case FromSession(n, sid, index, frame) =>
      var key := Key(n, sid);
      && n == node && Owns(to, key, born) && born[key].socket == k && key in outbound
      && outbound[key].heard == index + 1 && WasOpened(outbound[key])
      && index < |outbound[key].produced| && outbound[key].produced[index] == frame
    case FromReader(_, frame) => frame.ToConnection? && frame.cid == to
    case NodeGone(_, _) => false
  }

  ghost predicate InboxesOk(inbox: map<Uuid, seq<Delivery>>, born: map<Key, Birth>, outbound: map<Key, Outbound>) {
    forall c :: c in inbox ==> InboxOk(inbox[c], c, born, outbound)
  }

  ghost predicate InboxOk(box: seq<Delivery>, c: Uuid, born: map<Key, Birth>, outbound: map<Key, Outbound>) {
    && (forall i :: 0 <= i < |box| ==> DeliveryOk(box[i], c, born, outbound))
    && (forall i, j :: 0 <= i < j < |box| ==> Before(box[i], box[j]))
  }

  predicate DeliveryOk(d: Delivery, c: Uuid, born: map<Key, Birth>, outbound: map<Key, Outbound>) {
    match d
    case FromSession(n, sid, index, frame) =>
      var key := Key(n, sid);
      && Owns(c, key, born) && key in outbound && WasOpened(outbound[key])
      && index < outbound[key].heard && index < |outbound[key].produced| && outbound[key].produced[index] == frame
    case FromReader(_, frame) => frame.ToConnection? && frame.cid == c
    case NodeGone(n, sid) => Owns(c, Key(n, sid), born)
  }

  /** A frame still held by a server reader is not in any inbox yet. */
  ghost predicate FreshOk(reader: seq<NodePc>, inbox: map<Uuid, seq<Delivery>>) {
    forall k, c, i :: 0 <= k < |reader| && reader[k].Notifying? && c in inbox && 0 <= i < |inbox[c]| ==>
      Before(inbox[c][i], reader[k].what)
  }

  // --- nothing vanishes silently ---------------------------------------------------

  ghost predicate InFlow(flow: seq<Emitted>, sid: nat, index: nat) {
    exists j :: 0 <= j < |flow| && flow[j].source == Session(sid, index)
  }

  predicate Held(pc: NodePc, key: Key, index: nat) {
    pc.Notifying? && pc.what.FromSession? && pc.what.node == key.node && pc.what.sid == key.sid
      && pc.what.index == index
  }

  ghost predicate InBox(box: seq<Delivery>, key: Key, index: nat) {
    exists j :: 0 <= j < |box| && box[j].FromSession? && box[j].node == key.node && box[j].sid == key.sid
      && box[j].index == index
  }

  ghost predicate Accounted(key: Key, index: nat, dropped: set<nat>, flow: seq<Emitted>, pc: NodePc,
                            box: seq<Delivery>) {
    index in dropped || InFlow(flow, key.sid, index) || Held(pc, key, index) || InBox(box, key, index)
  }

  ghost predicate AllAccounted(key: Key, ob: Outbound, flow: seq<Emitted>, pc: NodePc, box: seq<Delivery>) {
    forall i :: 0 <= i < |ob.produced| ==> Accounted(key, i, ob.dropped, flow, pc, box)
  }

  /** Every frame a session ever produced is dropped, on its way, held by the server's
      reader, or in its connection's queue. */
  ghost predicate Conserved(outbound: map<Key, Outbound>, born: map<Key, Birth>, flows: seq<seq<Emitted>>,
                            reader: seq<NodePc>, inbox: map<Uuid, seq<Delivery>>) {
    forall key :: key in outbound ==>
      && key in born && born[key].socket < |flows| && born[key].socket < |reader| && born[key].cid in inbox
      && AllAccounted(key, outbound[key], flows[born[key].socket], reader[born[key].socket], inbox[born[key].cid])
  }

  // --- a disconnect is a barrier ------------------------------------------------------

  /** Connection `c` pushes nothing more to sockets of `node`. */
  predicate Departed(web: map<Uuid, WebPc>, c: Uuid, node: Uuid) {
    c in web && (web[c].Gone? || (web[c].Leaving? && node in web[c].visited))
  }

  ghost predicate Silent(flow: seq<Sent>, c: Uuid) {
    forall i :: 0 <= i < |flow| ==> flow[i].frame.cid != c
  }

  ghost predicate BarrierOk(flow: seq<Sent>, node: Uuid, web: map<Uuid, WebPc>, pc: AgentPc,
                            handles: map<(Uuid, nat), Kind>, quiet: set<Uuid>) {
    && (forall i, j :: 0 <= i < j < |flow| && flow[i].frame.ConnectionDisconnect? ==>
        flow[j].frame.cid != flow[i].frame.cid)
    && (forall i :: 0 <= i < |flow| && flow[i].frame.ConnectionDisconnect? ==> Departed(web, flow[i].frame.cid, node))
    && (pc.Disconnecting? ==> Departed(web, pc.cid, node) && Silent(flow, pc.cid))
    && (forall c :: c in quiet ==>
          && Departed(web, c, node) && Silent(flow, c)
          && (forall h :: h in handles ==> h.0 != c)
          && (pc.Inserting? ==> pc.cid != c) && (pc.Delivering? ==> pc.got.from != c)
            && (pc.Disconnecting? ==> pc.cid != c))
  }

  ghost predicate Barriers(flows: seq<seq<Sent>>, owner: seq<Uuid>, web: map<Uuid, WebPc>, agent: seq<AgentPc>,
                           handles: seq<map<(Uuid, nat), Kind>>, quiet: seq<set<Uuid>>) {
    |flows| == |owner| && |agent| == |owner| && |handles| == |owner| && |quiet| == |owner| &&
    forall k :: 0 <= k < |owner| ==> BarrierOk(flows[k], owner[k], web, agent[k], handles[k], quiet[k])
  }

  // --- the command stream of a session ---------------------------------------------------

  /** The command in `x` for session `sid`, if there is one the session takes. */
  function One(x: Sent, sid: nat, kind: Kind): seq<Got> {
    if x.frame.Forward? && x.frame.sid == sid && Takes(kind, x.frame.cmd) then [Got(x.from, x.frame.cmd)] else []
  }

  /** The commands for session `sid` still on their way to the agent. */
  function Queued(flow: seq<Sent>, sid: nat, kind: Kind): seq<Got> {
    if flow == [] then [] else One(flow[0], sid, kind) + Queued(flow[1..], sid, kind)
  }

  function InHand(pc: AgentPc, sid: nat): seq<Got> {
    if pc.Delivering? && pc.sid == sid then [pc.got] else []
  }

  /** `handled` says that the agent has, or is about to have, a handle for the session.
      While it does and the task runs, everything accepted on the session's socket is
      either taken, queued or on its way, in order. */
  predicate StreamOk(ib: Inbound, phase: Phase, handled: bool, pc: AgentPc, flow: seq<Sent>, sid: nat, kind: Kind) {
    && ib.consumed <= ib.accepted
    && (phase != Ended ==> ib.consumed + ib.stdin + InHand(pc, sid) <= ib.accepted)
    && (phase != Ended && handled ==>
          var total := ib.consumed + ib.stdin + InHand(pc, sid) + Queued(flow, sid, kind);
          if ib.moved then total <= ib.accepted else total == ib.accepted)
  }

  predicate Handled(key: Key, b: Birth, handles: map<(Uuid, nat), Kind>, inserted: set<Key>) {
    (b.cid, key.sid) in handles || key !in inserted
  }

  ghost predicate Streams(inbound: map<Key, Inbound>, born: map<Key, Birth>, phase: map<Key, Phase>,
                          handles: seq<map<(Uuid, nat), Kind>>, inserted: set<Key>, agent: seq<AgentPc>,
                          flows: seq<seq<Sent>>) {
    forall key :: key in inbound ==>
      && key in born && key in phase
      && var b := born[key];
         b.socket < |handles| && b.socket < |agent| && b.socket < |flows| &&
         StreamOk(inbound[key], phase[key], Handled(key, b, handles[b.socket], inserted), agent[b.socket],
                  flows[b.socket], key.sid, b.kind)
  }

  ghost predicate Newer(owner: seq<Uuid>, k: nat, node: Uuid) {
    exists j :: k < j < |owner| && owner[j] == node
  }

  /** Once a command went to a newer socket, nothing more goes to the older one. */
  ghost predicate MovedOk(inbound: map<Key, Inbound>, born: map<Key, Birth>, owner: seq<Uuid>, web: map<Uuid, WebPc>) {
    forall key :: key in inbound && inbound[key].moved ==>
      && key in born && born[key].cid in web
      && Newer(owner, born[key].socket, key.node)
      && (web[born[key].cid].Holding? ==>
          web[born[key].cid].socket != born[key].socket || !web[born[key].cid].frame.Forward?)
  }

  // --- all of it ------------------------------------------------------------------------

  ghost predicate Addressing(s: State) {
    && NodesOk(s.nodes, s.owner)
    && BornOk(s.born, s.owner, s.counter, s.web.Keys)
    && RoutesOk(s.routes, s.born, s.outbound)
    && WebOk(s.web, s.owner, s.born)
    && DownOk(Flows(s.down), s.owner, s.born, s.web.Keys)
    && AgentsOk(s.agent, s.owner, s.born, s.inserted)
    && HandlesOk(s.handles, s.owner, s.born, s.inserted)
    && InsertedOk(s.born, s.inserted, s.agent)
    && TagsOk(s.inbound, s.born)
  }

  ghost predicate Emission(s: State) {
    && OutboundOk(s.outbound, s.born, s.phase)
    && UpOk(Flows(s.up), s.owner, s.born, s.outbound)
    && ReadersOk(s.reader, s.owner, s.born, s.outbound)
    && InboxesOk(s.inbox, s.born, s.outbound)
    && FreshOk(s.reader, s.inbox)
    && Conserved(s.outbound, s.born, Flows(s.up), s.reader, s.inbox)
  }

  ghost predicate Intake(s: State) {
    && Barriers(Flows(s.down), s.owner, s.web, s.agent, s.handles, s.quiet)
    && Streams(s.inbound, s.born, s.phase, s.handles, s.inserted, s.agent, Flows(s.down))
    && MovedOk(s.inbound, s.born, s.owner, s.web)
  }

  ghost predicate Inv(s: State) {
    Shape(s) && Addressing(s) && Emission(s) && Intake(s)
  }
}
