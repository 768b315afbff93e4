/** Browser, server and agents as one transition system.

    Every operation on a shared table and every queue push or pop is a step of its
    own, so a run interleaves the reader task of each browser connection, the server's
    reader and the agent's reader of each node socket, and one task per session.
    A node may reconnect any number of times: each registration is a new socket, and
    sockets are numbered in registration order.

    The state is kept in columns, one map or sequence per concern. */
module RelayModel {
  import opened Protocol
  import opened Pipes

  /** The session counter of an agent process is a 32-bit word that starts at 1. */
  const SESSION_LIMIT: nat := 0x1_0000_0000

  /** Where the reader task of a browser connection stands. */
  datatype WebPc =
    | WebIdle
    | Routed(node: Uuid, sid: nat, cmd: Command)  // route found, node queue not yet fetched
    | Holding(socket: nat, frame: DownFrame)      // owns a clone of the node's queue
    | Leaving(visited: set<Uuid>)                 // telling nodes about the disconnect
    | Gone

  /** Where the server's reader task of a node socket stands. */
  datatype NodePc =
    | Serving
    | Notifying(to: Uuid, what: Delivery)
    | Collecting(picked: seq<(Key, Uuid)>, due: set<Key>)  // `due`: there from the start, not yet seen
    | Sweeping(pending: seq<(Key, Uuid)>)
    | Informing(key: Key, client: Uuid, rest: seq<(Key, Uuid)>)
    | Closed

  /** Where the agent's reader task of a socket stands. */
  datatype AgentPc =
    | AgentIdle
    | Inserting(cid: Uuid, sid: nat, kind: Kind)  // session task spawned, handle not stored yet
    | Delivering(got: Got, sid: nat)              // owns a clone of the session's command queue
    | Disconnecting(cid: Uuid)

  datatype Phase = Starting | Live | Ended

  /** What is fixed when a session is created.  `creator` is the tag of the OpenTunnel
      that created it, `cid` the connection id its task was given. */
  datatype Birth = Birth(kind: Kind, creator: Uuid, cid: Uuid, socket: nat)

  /** Commands of a session: waiting in its queue, taken by its loop, and accepted for
      it by the server.  `moved` is set once the server accepted a command for the
      session on a socket other than the session's own. */
  datatype Inbound = Inbound(stdin: seq<Got>, consumed: seq<Got>, accepted: seq<Got>, moved: bool)

  /** Frames of a session: all it produced, the indices dropped on the way, and how
      far the server's reader has come (`heard`). */
  datatype Outbound = Outbound(produced: seq<UpFrame>, dropped: set<nat>, heard: nat)

  datatype State = State(
    // server tables and tasks
    nodes: map<Uuid, nat>,
    connections: set<Uuid>,
    routes: map<Key, (Uuid, Uuid)>,
    web: map<Uuid, WebPc>,
    inbox: map<Uuid, seq<Delivery>>,
    reader: seq<NodePc>,
    // sockets
    owner: seq<Uuid>,
    down: seq<Pipe<Sent>>,
    up: seq<Pipe<Emitted>>,
    // agents
    agent: seq<AgentPc>,
    handles: seq<map<(Uuid, nat), Kind>>,
    quiet: seq<set<Uuid>>,
    counter: map<Uuid, nat>,
    // session tasks
    born: map<Key, Birth>,
    phase: map<Key, Phase>,
    stopped: set<Key>,
    inserted: set<Key>,
    inbound: map<Key, Inbound>,
    outbound: map<Key, Outbound>)

  function Init(): State {
    State(map[], {}, map[], map[], map[], [], [], [], [], [], [], [], map[], map[], map[], {}, {}, map[], map[])
  }

  function Counter(counter: map<Uuid, nat>, node: Uuid): nat {
    if node in counter then counter[node] else 1
  }

  function Describe(node: Uuid, x: Emitted): Delivery {
    match x.source
    case Session(sid, index) => FromSession(node, sid, index, x.frame)
    case Reader => FromReader(node, x.frame)
  }

  /** The frames a session task may push in a phase, and the phase that follows.
      SSH announces itself only after connecting, SFTP before. */
  predicate MayEmit(b: Birth, sid: nat, phase: Phase, frame: UpFrame, next: Phase) {
    match phase
    case Starting =>
      || (frame == TunnelOpened(b.cid, sid) && next == Live)
      || (b.kind == Ssh && frame.ToSession? && frame.sid == sid && next == Ended)
    case Live =>
      || (frame.ToSession? && frame.sid == sid && next != Starting)
      || (frame == TunnelClosed(b.cid, sid) && next == Ended)
    case Ended => false
  }

  datatype Event =
    // browser connections
    | Accept(c: Uuid)
    | WebOpen(c: Uuid, node: Uuid, kind: Kind, complete: bool)
    | WebRoute(c: Uuid, node: Uuid, sid: nat, cmd: Command)
    | WebResolve(c: Uuid)
    | WebPush(c: Uuid, ok: bool)
    | WebLeave(c: Uuid)
    | WebTell(c: Uuid, node: Uuid, ok: bool)
    | WebGone(c: Uuid)
    // node sockets, server side
    | Register(node: Uuid)
    | ServeFrame(k: nat)
    | ServeNotify(k: nat, ok: bool)
    | ServeEnd(k: nat)
    | Collect(k: nat, key: Key)
    | CollectEnd(k: nat)
    | SweepOne(k: nat)
    | Inform(k: nat, ok: bool)
    | SweepEnd(k: nat)
    // stale-entry sweep
    | StaleNode(node: Uuid)
    | StaleConnection(c: Uuid)
    // writer tasks
    | MoveDown(k: nat)
    | MoveUp(k: nat)
    | LoseUp(k: nat)
    // agents
    | AgentRead(k: nat, body: Bytes, lost: bool)
    | AgentInsert(k: nat)
    | AgentDeliver(k: nat)
    | AgentClose(k: nat, handle: (Uuid, nat))
    | AgentCloseEnd(k: nat)
    | AgentDrop(k: nat, handle: (Uuid, nat))
    // session tasks
    | Emit(key: Key, frame: UpFrame, next: Phase, lost: bool)
    | Consume(key: Key)

  /** Steps of the browsers' reader tasks. */
  predicate WebStep(e: Event) {
    || e.Accept? || e.WebOpen? || e.WebRoute? || e.WebResolve? || e.WebPush? || e.WebLeave?
    || e.WebTell? || e.WebGone?
  }

  /** Steps of the other server tasks. */
  predicate ServerStep(e: Event) {
    || e.Register? || e.ServeFrame? || e.ServeNotify? || e.ServeEnd? || e.Collect? || e.CollectEnd?
    || e.SweepOne? || e.Inform? || e.SweepEnd? || e.StaleNode? || e.StaleConnection?
  }

  /** Sizes and domains of the columns. */
  predicate Shape(s: State) {
    && |s.reader| == |s.owner| && |s.down| == |s.owner| && |s.up| == |s.owner|
    && |s.agent| == |s.owner| && |s.handles| == |s.owner| && |s.quiet| == |s.owner|
    && s.phase.Keys == s.born.Keys && s.inbound.Keys == s.born.Keys && s.outbound.Keys == s.born.Keys
    && s.inbox.Keys == s.web.Keys && s.connections <= s.web.Keys
    && (forall key :: key in s.born ==> s.born[key].socket < |s.owner|)
  }

  predicate Enabled(s: State, e: Event)
    requires Shape(s)
  {
    match e
    case Accept(c) => c !in s.web
    case WebOpen(c, _, _, _) => c in s.web && s.web[c].WebIdle?
    case WebRoute(c, _, _, _) => c in s.web && s.web[c].WebIdle?
    case WebResolve(c) => c in s.web && s.web[c].Routed?
    case WebPush(c, _) => c in s.web && s.web[c].Holding? && s.web[c].socket < |s.owner|
    case WebLeave(c) => c in s.web && s.web[c].WebIdle?
    case WebTell(c, n, _) =>
      c in s.web && s.web[c].Leaving? && n in s.nodes && n !in s.web[c].visited && s.nodes[n] < |s.owner|
    case WebGone(c) => c in s.web && s.web[c].Leaving?
    case Register(_) => true
    case ServeFrame(k) => k < |s.owner| && s.reader[k].Serving? && s.up[k].wire != []
    case ServeNotify(k, _) => k < |s.owner| && s.reader[k].Notifying?
    case ServeEnd(k) => k < |s.owner| && s.reader[k].Serving?
    case Collect(k, key) =>
      k < |s.owner| && s.reader[k].Collecting? && key in s.routes && key.node == s.owner[k]
    case CollectEnd(k) =>
      k < |s.owner| && s.reader[k].Collecting? && forall key :: key in s.reader[k].due ==> key !in s.routes
    case SweepOne(k) => k < |s.owner| && s.reader[k].Sweeping? && s.reader[k].pending != []
    case Inform(k, _) => k < |s.owner| && s.reader[k].Informing?
    case SweepEnd(k) => k < |s.owner| && s.reader[k].Sweeping? && s.reader[k].pending == []
    case StaleNode(_) => true
    case StaleConnection(_) => true
    case MoveDown(k) => k < |s.owner| && s.down[k].queue != []
    case MoveUp(k) => k < |s.owner| && s.up[k].queue != []
    case LoseUp(k) => k < |s.owner| && s.up[k].queue != []
    case AgentRead(k, _, _) =>
      k < |s.owner| && s.agent[k].AgentIdle? && s.down[k].wire != [] &&
      (s.down[k].wire[0].frame.OpenTunnel? ==> Counter(s.counter, s.owner[k]) < SESSION_LIMIT)
    case AgentInsert(k) => k < |s.owner| && s.agent[k].Inserting?
    case AgentDeliver(k) =>
      k < |s.owner| && s.agent[k].Delivering? && Key(s.owner[k], s.agent[k].sid) in s.born
    case AgentClose(k, key) =>
      k < |s.owner| && s.agent[k].Disconnecting? && key in s.handles[k] && key.0 == s.agent[k].cid
    case AgentCloseEnd(k) =>
      k < |s.owner| && s.agent[k].Disconnecting? && forall key :: key in s.handles[k] ==> key.0 != s.agent[k].cid
    case AgentDrop(k, key) => k < |s.owner| && key in s.handles[k]
    case Emit(key, frame, next, _) => key in s.born && MayEmit(s.born[key], key.sid, s.phase[key], frame, next)
    case Consume(key) =>
      key in s.born && s.phase[key] == Live && key !in s.stopped && s.inbound[key].stdin != []
  }

  /** What most steps leave alone: sessions' births and frames, inboxes, and the record
      of completed disconnects. */
  predicate Frame(s: State, t: State) {
    t.born == s.born && t.outbound == s.outbound && t.inbox == s.inbox && t.quiet == s.quiet
  }

  /** What all but the readers of node sockets and the stale sweep leave alone. */
  predicate SocketFrame(s: State, t: State) {
    t.nodes == s.nodes && t.routes == s.routes && t.owner == s.owner && t.reader == s.reader
  }

  /** A step of reader `k` moves no other reader. */
  predicate OnlyReader(s: State, t: State, k: nat) {
    && t.owner == s.owner && k < |s.reader| && k < |t.reader| && t.reader == s.reader[k := t.reader[k]]
  }

  predicate SameTables(s: State, t: State) {
    t.nodes == s.nodes && t.routes == s.routes
  }

  // --- browser connections (server/src/web.rs) ---------------------------------

  function DoAccept(s: State, c: Uuid): (t: State)
    requires Shape(s) && Enabled(s, Accept(c))
    ensures SocketFrame(s, t)
  {
    s.(web := s.web[c := WebIdle], inbox := s.inbox[c := []], connections := s.connections + {c})
  }

  function DoWebOpen(s: State, c: Uuid, node: Uuid, kind: Kind, complete: bool): (t: State)
    ensures Frame(s, t) && SocketFrame(s, t)
  {
    if node in s.nodes
    then s.(web := s.web[c := Holding(s.nodes[node], OpenTunnel(c, kind, complete))])
    else s
  }

  function DoWebRoute(s: State, c: Uuid, node: Uuid, sid: nat, cmd: Command): (t: State)
    ensures Frame(s, t) && SocketFrame(s, t)
  {
    match NodeByCidAndSid(s.routes, c, node, sid)
    case Some(n) => s.(web := s.web[c := Routed(n, sid, cmd)])
    case None => s
  }

  function DoWebResolve(s: State, c: Uuid): (t: State)
    requires Shape(s) && Enabled(s, WebResolve(c))
    ensures Frame(s, t) && SocketFrame(s, t)
  {
    var Routed(n, sid, cmd) := s.web[c];
    s.(web := s.web[c := if n in s.nodes then Holding(s.nodes[n], Forward(c, sid, cmd)) else WebIdle])
  }

  /** What the server has accepted for a session once `c` has pushed `frame` on socket `k`. */
  function AcceptInto(s: State, c: Uuid, k: nat, frame: DownFrame): map<Key, Inbound>
    requires Shape(s) && k < |s.owner|
  {
    if frame.Forward? && Key(s.owner[k], frame.sid) in s.born
      && Takes(s.born[Key(s.owner[k], frame.sid)].kind, frame.cmd)
    then
      var key := Key(s.owner[k], frame.sid);
      var ib := s.inbound[key];
      s.inbound[key := ib.(accepted := ib.accepted + [Got(c, frame.cmd)],
                           moved := ib.moved || k != s.born[key].socket)]
    else s.inbound
  }

  function DoWebPush(s: State, c: Uuid, ok: bool): (t: State)
    requires Shape(s) && Enabled(s, WebPush(c, ok))
    ensures Frame(s, t) && SocketFrame(s, t)
  {
    var Holding(k, frame) := s.web[c];
    if ok
    then s.(web := s.web[c := WebIdle],
            down := s.down[k := s.down[k].Push(Sent(c, frame))],
            inbound := AcceptInto(s, c, k, frame))
    else s.(web := s.web[c := WebIdle])
  }

  function DoWebLeave(s: State, c: Uuid): (t: State)
    ensures Frame(s, t) && SocketFrame(s, t)
  {
    s.(web := s.web[c := Leaving({})], connections := s.connections - {c})
  }

  function DoWebTell(s: State, c: Uuid, n: Uuid, ok: bool): (t: State)
    requires Shape(s) && Enabled(s, WebTell(c, n, ok))
    ensures Frame(s, t) && SocketFrame(s, t)
  {
    var k := s.nodes[n];
    var u := s.(web := s.web[c := Leaving(s.web[c].visited + {n})]);
    if ok then u.(down := s.down[k := s.down[k].Push(Sent(c, ConnectionDisconnect(c)))]) else u
  }

  function DoWebGone(s: State, c: Uuid): (t: State)
    ensures Frame(s, t) && SocketFrame(s, t)
  {
    s.(web := s.web[c := Gone])
  }

  // --- node sockets on the server (server/src/node.rs) -------------------------

  function DoRegister(s: State, node: Uuid): State {
    s.(nodes := s.nodes[node := |s.owner|],
       owner := s.owner + [node],
       reader := s.reader + [Serving],
       down := s.down + [Empty()],
       up := s.up + [Empty()],
       agent := s.agent + [AgentIdle],
       handles := s.handles + [map[]],
       quiet := s.quiet + [{}])
  }

  /** The session record after the server's reader took frame `index`. */
  function Hear(ob: Outbound, index: nat, drop: bool): Outbound {
    ob.(heard := index + 1, dropped := if drop then ob.dropped + {index} else ob.dropped)
  }

  function HearIn(outbound: map<Key, Outbound>, node: Uuid, source: Source, drop: bool): map<Key, Outbound> {
    if source.Session? && Key(node, source.sid) in outbound
    then
      var key := Key(node, source.sid);
      outbound[key := Hear(outbound[key], source.index, drop)]
    else outbound
  }

  /** The table operation a frame causes and whom to notify. */
  function Route(routes: map<Key, (Uuid, Uuid)>, node: Uuid, frame: UpFrame): (map<Key, (Uuid, Uuid)>, Option<Uuid>) {
    match frame
    case TunnelOpened(cid, sid) => (routes[Key(node, sid) := (cid, node)], Some(cid))
    case TunnelClosed(cid, sid) => (routes - {Key(node, sid)}, Some(cid))
    case ToSession(sid, _) => (routes, ConnectionBySid(routes, sid, node))
    case ToConnection(cid, _) => (routes, Some(cid))
  }

  function DoServeFrame(s: State, k: nat): (t: State)
    requires Shape(s) && Enabled(s, ServeFrame(k))
    ensures OnlyReader(s, t, k) && t.nodes == s.nodes
    ensures t.routes == Route(s.routes, s.owner[k], s.up[k].wire[0].frame).0
  {
    var x := s.up[k].wire[0];
    var (routes, target) := Route(s.routes, s.owner[k], x.frame);
    s.(up := s.up[k := s.up[k].Pop()],
       routes := routes,
       reader := s.reader[k := if target.Some? then Notifying(target.value, Describe(s.owner[k], x)) else Serving],
       outbound := HearIn(s.outbound, s.owner[k], x.source, target.None?))
  }

  function DropFrom(outbound: map<Key, Outbound>, d: Delivery): map<Key, Outbound> {
    if d.FromSession? && Key(d.node, d.sid) in outbound
    then
      var key := Key(d.node, d.sid);
      outbound[key := outbound[key].(dropped := outbound[key].dropped + {d.index})]
    else outbound
  }

  function DoServeNotify(s: State, k: nat, ok: bool): (t: State)
    requires Shape(s) && Enabled(s, ServeNotify(k, ok))
    ensures OnlyReader(s, t, k) && SameTables(s, t)
  {
    var Notifying(to, d) := s.reader[k];
    var u := s.(reader := s.reader[k := Serving]);
    if ok && to in s.connections
    then u.(inbox := s.inbox[to := s.inbox[to] + [d]])
    else u.(outbound := DropFrom(s.outbound, d))
  }

  function RoutesOf(routes: map<Key, (Uuid, Uuid)>, node: Uuid): set<Key> {
    set key | key in routes && key.node == node
  }

  /** The end of a socket: unregister the node and start collecting its routes.  The
      iteration sees every route that stays in the table, and may see later ones. */
  function DoServeEnd(s: State, k: nat): (t: State)
    requires Shape(s) && Enabled(s, ServeEnd(k))
    ensures Frame(s, t)
    ensures OnlyReader(s, t, k) && t.routes == s.routes && t.nodes == s.nodes - {s.owner[k]}
  {
    if s.owner[k] in s.nodes
    then s.(nodes := s.nodes - {s.owner[k]}, reader := s.reader[k := Collecting([], RoutesOf(s.routes, s.owner[k]))])
    else s.(reader := s.reader[k := Closed])
  }

  function DoCollect(s: State, k: nat, key: Key): (t: State)
    requires Shape(s) && Enabled(s, Collect(k, key))
    ensures Frame(s, t)
    ensures OnlyReader(s, t, k) && SameTables(s, t)
  {
    var Collecting(picked, due) := s.reader[k];
    s.(reader := s.reader[k := Collecting(picked + [(key, s.routes[key].0)], due - {key})])
  }

  function DoCollectEnd(s: State, k: nat): (t: State)
    requires Shape(s) && Enabled(s, CollectEnd(k))
    ensures Frame(s, t)
    ensures OnlyReader(s, t, k) && SameTables(s, t)
  {
    s.(reader := s.reader[k := Sweeping(s.reader[k].picked)])
  }

  function DoSweepOne(s: State, k: nat): (t: State)
    requires Shape(s) && Enabled(s, SweepOne(k))
    ensures Frame(s, t)
    ensures OnlyReader(s, t, k) && t.nodes == s.nodes && t.routes == s.routes - {s.reader[k].pending[0].0}
  {
    var p := s.reader[k].pending;
    s.(routes := s.routes - {p[0].0}, reader := s.reader[k := Informing(p[0].0, p[0].1, p[1..])])
  }

  function DoInform(s: State, k: nat, ok: bool): (t: State)
    requires Shape(s) && Enabled(s, Inform(k, ok))
    ensures OnlyReader(s, t, k) && SameTables(s, t)
  {
    var Informing(key, to, rest) := s.reader[k];
    var u := s.(reader := s.reader[k := Sweeping(rest)]);
    if ok && to in s.connections
    then u.(inbox := s.inbox[to := s.inbox[to] + [NodeGone(key.node, key.sid)]])
    else u
  }

  function DoSweepEnd(s: State, k: nat): (t: State)
    requires Shape(s) && Enabled(s, SweepEnd(k))
    ensures Frame(s, t)
    ensures OnlyReader(s, t, k) && SameTables(s, t)
  {
    s.(reader := s.reader[k := Closed])
  }

  function DoStaleNode(s: State, n: Uuid): (t: State)
    ensures Frame(s, t)
    ensures t.routes == s.routes && t.owner == s.owner && t.reader == s.reader && t.nodes == s.nodes - {n}
  {
    s.(nodes := s.nodes - {n})
  }

  function DoStaleConnection(s: State, c: Uuid): (t: State)
    ensures Frame(s, t) && SocketFrame(s, t)
  {
    s.(connections := s.connections - {c})
  }

  // --- writer tasks -------------------------------------------------------------

  function DoMoveDown(s: State, k: nat): (t: State)
    requires Shape(s) && Enabled(s, MoveDown(k))
    ensures Frame(s, t) && SocketFrame(s, t)
  {
    s.(down := s.down[k := s.down[k].Move()])
  }

  function DoMoveUp(s: State, k: nat): (t: State)
    requires Shape(s) && Enabled(s, MoveUp(k))
    ensures Frame(s, t) && SocketFrame(s, t)
  {
    s.(up := s.up[k := s.up[k].Move()])
  }

  function LoseFrom(outbound: map<Key, Outbound>, node: Uuid, source: Source): map<Key, Outbound> {
    if source.Session? && Key(node, source.sid) in outbound
    then
      var key := Key(node, source.sid);
      outbound[key := outbound[key].(dropped := outbound[key].dropped + {source.index})]
    else outbound
  }

  function DoLoseUp(s: State, k: nat): (t: State)
    requires Shape(s) && Enabled(s, LoseUp(k))
    ensures SocketFrame(s, t)
  {
    s.(up := s.up[k := s.up[k].Lose()], outbound := LoseFrom(s.outbound, s.owner[k], s.up[k].queue[0].source))
  }

  // --- agents (agent/src/ws.rs) ---------------------------------------------------

  /** `OpenTunnel`: take the next session id and spawn the session task. */
  function Spawn(s: State, k: nat, creator: Uuid, cid: Uuid, kind: Kind): State
    requires Shape(s) && k < |s.owner|
  {
    var n := s.owner[k];
    var sid := Counter(s.counter, n);
    var key := Key(n, sid);
    s.(counter := s.counter[n := sid + 1],
       agent := s.agent[k := Inserting(cid, sid, kind)],
       born := s.born[key := Birth(kind, creator, cid, k)],
       phase := s.phase[key := Starting],
       inbound := s.inbound[key := Inbound([], [], [], false)],
       outbound := s.outbound[key := Outbound([], {}, 0)])
  }

  /** Where the reader stands after popping a frame that spawns no session: a command
      needs a handle of the right kind, a disconnect starts the closing loop. */
  function AfterPop(handles: map<(Uuid, nat), Kind>, x: Sent): AgentPc {
    match x.frame
    case Forward(cid, sid, cmd) =>
      if (cid, sid) in handles && Takes(handles[(cid, sid)], cmd) then Delivering(Got(x.from, cmd), sid) else AgentIdle
    case ConnectionDisconnect(cid) => Disconnecting(cid)
    case OpenTunnel(_, _, _) => AgentIdle
  }

  /** Incomplete credentials are answered with an error to the connection. */
  function DoAgentRead(s: State, k: nat, body: Bytes, lost: bool): (t: State)
    requires Shape(s) && Enabled(s, AgentRead(k, body, lost))
    ensures SocketFrame(s, t)
  {
    var x := s.down[k].wire[0];
    var u := s.(down := s.down[k := s.down[k].Pop()]);
    if x.frame.OpenTunnel? && x.frame.complete then Spawn(u, k, x.from, x.frame.cid, x.frame.kind)
    else
      u.(agent := s.agent[k := AfterPop(s.handles[k], x)],
         up := if x.frame.OpenTunnel? && !lost
               then s.up[k := s.up[k].Push(Emitted(Reader, ToConnection(x.frame.cid, body)))]
               else s.up)
  }

  /** Storing a handle under a key in use would stop the session it displaces. */
  function DoAgentInsert(s: State, k: nat): (t: State)
    requires Shape(s) && Enabled(s, AgentInsert(k))
    ensures Frame(s, t) && SocketFrame(s, t)
  {
    var Inserting(cid, sid, kind) := s.agent[k];
    var key := Key(s.owner[k], sid);
    s.(agent := s.agent[k := AgentIdle],
       handles := s.handles[k := s.handles[k][(cid, sid) := kind]],
       inserted := s.inserted + {key},
       stopped := if (cid, sid) in s.handles[k] then s.stopped + {key} else s.stopped)
  }

  /** The push fails once the session task has dropped its end of the queue. */
  function DoAgentDeliver(s: State, k: nat): (t: State)
    requires Shape(s) && Enabled(s, AgentDeliver(k))
    ensures Frame(s, t) && SocketFrame(s, t)
  {
    var Delivering(got, sid) := s.agent[k];
    var key := Key(s.owner[k], sid);
    var u := s.(agent := s.agent[k := AgentIdle]);
    if s.phase[key] == Ended then u
    else u.(inbound := s.inbound[key := s.inbound[key].(stdin := s.inbound[key].stdin + [got])])
  }

  /** Remove a handle and signal its session to stop. */
  function Unhandle(s: State, k: nat, key: (Uuid, nat)): State
    requires k < |s.owner| && k < |s.handles|
  {
    s.(handles := s.handles[k := s.handles[k] - {key}], stopped := s.stopped + {Key(s.owner[k], key.1)})
  }

  function DoAgentClose(s: State, k: nat, handle: (Uuid, nat)): (t: State)
    requires Shape(s) && Enabled(s, AgentClose(k, handle))
    ensures Frame(s, t) && SocketFrame(s, t)
  {
    Unhandle(s, k, handle)
  }

  function DoAgentCloseEnd(s: State, k: nat): (t: State)
    requires Shape(s) && Enabled(s, AgentCloseEnd(k))
    ensures SocketFrame(s, t)
  {
    s.(agent := s.agent[k := AgentIdle], quiet := s.quiet[k := s.quiet[k] + {s.agent[k].cid}])
  }

  function DoAgentDrop(s: State, k: nat, handle: (Uuid, nat)): (t: State)
    requires Shape(s) && Enabled(s, AgentDrop(k, handle))
    ensures Frame(s, t) && SocketFrame(s, t)
  {
    Unhandle(s, k, handle)
  }

  // --- session tasks (agent/src/ssh/connection.rs, agent/src/sftp/connection.rs) ---

  function DoEmit(s: State, key: Key, frame: UpFrame, next: Phase, lost: bool): (t: State)
    requires Shape(s) && Enabled(s, Emit(key, frame, next, lost))
    ensures SocketFrame(s, t)
  {
    var ob := s.outbound[key];
    var i := |ob.produced|;
    var k := s.born[key].socket;
    var u := s.(phase := s.phase[key := next],
                outbound := s.outbound[key := ob.(produced := ob.produced + [frame],
                                                  dropped := if lost then ob.dropped + {i} else ob.dropped)]);
    if lost then u else u.(up := s.up[k := s.up[k].Push(Emitted(Session(key.sid, i), frame))])
  }

  function DoConsume(s: State, key: Key): (t: State)
    requires Shape(s) && Enabled(s, Consume(key))
    ensures Frame(s, t) && SocketFrame(s, t)
  {
    var ib := s.inbound[key];
    s.(inbound := s.inbound[key := ib.(stdin := ib.stdin[1..], consumed := ib.consumed + [ib.stdin[0]])])
  }

  function Apply(s: State, e: Event): State
    requires Shape(s) && Enabled(s, e)
  {
    match e
    case Accept(c) => DoAccept(s, c)
    case WebOpen(c, n, kind, complete) => DoWebOpen(s, c, n, kind, complete)
    case WebRoute(c, n, sid, cmd) => DoWebRoute(s, c, n, sid, cmd)
    case WebResolve(c) => DoWebResolve(s, c)
    case WebPush(c, ok) => DoWebPush(s, c, ok)
    case WebLeave(c) => DoWebLeave(s, c)
    case WebTell(c, n, ok) => DoWebTell(s, c, n, ok)
    case WebGone(c) => DoWebGone(s, c)
    case Register(n) => DoRegister(s, n)
    case ServeFrame(k) => DoServeFrame(s, k)
    case ServeNotify(k, ok) => DoServeNotify(s, k, ok)
    case ServeEnd(k) => DoServeEnd(s, k)
    case Collect(k, key) => DoCollect(s, k, key)
    case CollectEnd(k) => DoCollectEnd(s, k)
    case SweepOne(k) => DoSweepOne(s, k)
    case Inform(k, ok) => DoInform(s, k, ok)
    case SweepEnd(k) => DoSweepEnd(s, k)
    case StaleNode(n) => DoStaleNode(s, n)
    case StaleConnection(c) => DoStaleConnection(s, c)
    case MoveDown(k) => DoMoveDown(s, k)
    case MoveUp(k) => DoMoveUp(s, k)
    case LoseUp(k) => DoLoseUp(s, k)
    case AgentRead(k, body, lost) => DoAgentRead(s, k, body, lost)
    case AgentInsert(k) => DoAgentInsert(s, k)
    case AgentDeliver(k) => DoAgentDeliver(s, k)
    case AgentClose(k, handle) => DoAgentClose(s, k, handle)
    case AgentCloseEnd(k) => DoAgentCloseEnd(s, k)
    case AgentDrop(k, handle) => DoAgentDrop(s, k, handle)
    case Emit(key, frame, next, lost) => DoEmit(s, key, frame, next, lost)
    case Consume(key) => DoConsume(s, key)
  }
}
