/** The steps of the relay, one by one, against the intake invariants. */
module RelayIntakeSteps {
  import opened Protocol
  import opened Pipes
  import opened RelayModel
  import opened RelayInvariants
  import opened RelayIntake

  /** The stream clause of one session in one state. */
  ghost predicate StreamAt(s: State, key: Key)
    requires Shape(s) && key in s.born
  {
    var b := s.born[key];
    StreamOk(s.inbound[key], s.phase[key], Handled(key, b, s.handles[b.socket], s.inserted), s.agent[b.socket],
             Flows(s.down)[b.socket], key.sid, b.kind)
  }

  lemma PlaceOf(s: State, key: Key)
    requires Shape(s) && Addressing(s) && key in s.born
    ensures s.born[key].socket < |s.owner| && s.owner[s.born[key].socket] == key.node && s.born[key].cid in s.web
  {
    hide NodesOk, RoutesOk, WebOk, DownOk, AgentsOk, HandlesOk, InsertedOk, TagsOk;
  }

  lemma WebPcAt(s: State, c: Uuid)
    requires Shape(s) && Addressing(s) && c in s.web
    ensures WebPcOk(c, s.web[c], s.owner, s.born)
  {
    hide NodesOk, RoutesOk, BornOk, DownOk, AgentsOk, HandlesOk, InsertedOk, TagsOk;
  }

  lemma AgentPcAt(s: State, k: nat)
    requires Shape(s) && Addressing(s) && k < |s.owner|
    ensures AgentPcOk(k, s.agent[k], s.owner[k], s.born, s.inserted)
  {
    hide NodesOk, RoutesOk, BornOk, DownOk, WebOk, HandlesOk, InsertedOk, TagsOk;
  }

  // --- steps of a browser's reader -----------------------------------------------------------------

  lemma SetMoved(inbound: map<Key, Inbound>, born: map<Key, Birth>, owner: seq<Uuid>, web: map<Uuid, WebPc>, c: Uuid,
                 pc: WebPc)
    requires MovedOk(inbound, born, owner, web)
    requires pc.Holding? && pc.frame.Forward? ==> forall j :: pc.socket < j < |owner| ==>
      pc.socket < |owner| && owner[j] != owner[pc.socket]
    requires forall key :: key in born && key in inbound ==>
      born[key].socket < |owner| && owner[born[key].socket] == key.node
    ensures MovedOk(inbound, born, owner, web[c := pc])
  {
  }

  lemma KeepWebPc(s: State, c: Uuid, pc: WebPc)
    requires Inv(s) && c in s.web && Onward(s.web[c], pc)
    requires pc.Holding? && pc.frame.Forward? ==>
      pc.socket < |s.owner| && forall j :: pc.socket < j < |s.owner| ==> s.owner[j] != s.owner[pc.socket]
    ensures Intake(s.(web := s.web[c := pc]))
  {
    hide Emission, NodesOk, RoutesOk, WebOk, DownOk, AgentsOk, HandlesOk, InsertedOk, TagsOk, Barriers, Streams,
      MovedOk;
    WebBarriers(Flows(s.down), s.owner, s.web, s.agent, s.handles, s.quiet, c, pc);
    SetMoved(s.inbound, s.born, s.owner, s.web, c, pc);
  }

  lemma KeepAccept(s: State, c: Uuid)
    requires Inv(s) && Enabled(s, Accept(c))
    ensures Intake(DoAccept(s, c))
  {
    hide Emission, NodesOk, RoutesOk, WebOk, DownOk, AgentsOk, HandlesOk, InsertedOk, TagsOk, Barriers, Streams,
      MovedOk;
    WebBarriers(Flows(s.down), s.owner, s.web, s.agent, s.handles, s.quiet, c, WebIdle);
    SetMoved(s.inbound, s.born, s.owner, s.web, c, WebIdle);
  }

  lemma KeepOpen(s: State, c: Uuid, n: Uuid, kind: Kind, complete: bool)
    requires Inv(s) && Enabled(s, WebOpen(c, n, kind, complete))
    ensures Intake(DoWebOpen(s, c, n, kind, complete))
  {
    hide Emission, Addressing, Barriers, Streams, MovedOk;
    if n in s.nodes {
      KeepWebPc(s, c, Holding(s.nodes[n], OpenTunnel(c, kind, complete)));
    }
  }

  lemma KeepRoute(s: State, c: Uuid, n: Uuid, sid: nat, cmd: Command)
    requires Inv(s) && Enabled(s, WebRoute(c, n, sid, cmd))
    ensures Intake(DoWebRoute(s, c, n, sid, cmd))
  {
    hide Emission, Addressing, Barriers, Streams, MovedOk;
    var found := NodeByCidAndSid(s.routes, c, n, sid);
    if found.Some? {
      KeepWebPc(s, c, Routed(found.value, sid, cmd));
    }
  }

  lemma KeepResolve(s: State, c: Uuid)
    requires Inv(s) && Enabled(s, WebResolve(c))
    ensures Intake(DoWebResolve(s, c))
  {
    hide Emission, BornOk, RoutesOk, WebOk, DownOk, AgentsOk, HandlesOk, InsertedOk, TagsOk, Barriers, Streams, MovedOk;
    KeepWebPc(s, c, DoWebResolve(s, c).web[c]);
  }

  lemma KeepLeave(s: State, c: Uuid)
    requires Inv(s) && Enabled(s, WebLeave(c))
    ensures Intake(DoWebLeave(s, c))
  {
    hide Emission, Addressing, Barriers, Streams, MovedOk;
    KeepWebPc(s, c, Leaving({}));
  }

  lemma KeepGone(s: State, c: Uuid)
    requires Inv(s) && Enabled(s, WebGone(c))
    ensures Intake(DoWebGone(s, c))
  {
    hide Emission, Addressing, Barriers, Streams, MovedOk;
    KeepWebPc(s, c, Gone);
  }

  lemma NewerAt(owner: seq<Uuid>, k: nat, j: nat, node: Uuid)
    requires k < j < |owner| && owner[j] == node
    ensures Newer(owner, k, node)
  {
  }

  lemma MovedAt(s: State, key: Key)
    requires Shape(s) && MovedOk(s.inbound, s.born, s.owner, s.web) && key in s.born && s.inbound[key].moved
    ensures s.born[key].cid in s.web
    ensures s.web[s.born[key].cid].Holding? && s.web[s.born[key].cid].frame.Forward? ==>
      s.web[s.born[key].cid].socket != s.born[key].socket
  {
  }

  lemma AcceptedAt(s: State, c: Uuid, k: nat, frame: DownFrame, key: Key)
    requires Shape(s) && k < |s.owner| && key in s.born
    ensures var inbound' := AcceptInto(s, c, k, frame);
            && key in inbound'
            && inbound'[key] ==
               if frame.Forward? && key == Key(s.owner[k], frame.sid) && Takes(s.born[key].kind, frame.cmd)
               then s.inbound[key].(accepted := s.inbound[key].accepted + [Got(c, frame.cmd)],
                                    moved := s.inbound[key].moved || k != s.born[key].socket)
               else s.inbound[key]
  {
  }

  /** What one push does to one session's stream. */
  lemma PushStream(s: State, c: Uuid, k: nat, frame: DownFrame, key: Key)
    requires Shape(s) && key in s.born && k < |s.owner| && StreamAt(s, key)
    requires var b := s.born[key];
             var targeted := frame.Forward? && key == Key(s.owner[k], frame.sid) && Takes(b.kind, frame.cmd);
             b.socket == k ==>
               (targeted <==> One(Sent(c, frame), key.sid, b.kind) != []) && (targeted ==> !s.inbound[key].moved)
    ensures key in AcceptInto(s, c, k, frame)
    ensures var b := s.born[key];
            var flow := Flows(s.down)[b.socket];
            StreamOk(AcceptInto(s, c, k, frame)[key], s.phase[key], Handled(key, b, s.handles[b.socket], s.inserted),
                     s.agent[b.socket],
                     if b.socket == k then flow + [Sent(c, frame)] else flow, key.sid, b.kind)
  {
    hide StreamOk, AcceptInto, Handled, One, Takes, Queued;
    var b := s.born[key];
    AcceptedAt(s, c, k, frame, key);
    PushOne(s.inbound[key], s.phase[key], Handled(key, b, s.handles[b.socket], s.inserted), s.agent[b.socket],
            Flows(s.down)[b.socket],
            key.sid, b.kind, Sent(c, frame), b.socket == k, frame.Forward? && key == Key(s.owner[k], frame.sid)
              && Takes(b.kind, frame.cmd));
  }

  /** A push on the session's own socket is for the session exactly when the frame is,
      and then no command has gone elsewhere before. */
  lemma PushAim(s: State, c: Uuid, key: Key)
    requires Inv(s) && Enabled(s, WebPush(c, true)) && key in s.born
    ensures var Holding(k, frame) := s.web[c];
            var b := s.born[key];
            var targeted := frame.Forward? && key == Key(s.owner[k], frame.sid) && Takes(b.kind, frame.cmd);
            b.socket == k ==>
              (targeted <==> One(Sent(c, frame), key.sid, b.kind) != []) && (targeted ==> !s.inbound[key].moved)
  {
    hide Emission, Addressing, Barriers, Streams, MovedOk;
    WebPcAt(s, c);
    PlaceOf(s, key);
    if s.inbound[key].moved {
      MovedAt(s, key);
    }
  }

  lemma PushMoved(s: State, c: Uuid)
    requires Inv(s) && Enabled(s, WebPush(c, true))
    ensures var t := DoWebPush(s, c, true); MovedOk(t.inbound, t.born, t.owner, t.web)
  {
    hide Emission, Addressing, Barriers, Streams, AcceptInto;
    var Holding(k, frame) := s.web[c];
    var inbound' := AcceptInto(s, c, k, frame);
    WebPcAt(s, c);
    AcceptedKeys(s, c, k, frame);
    forall key | key in inbound' && inbound'[key].moved
      ensures s.born[key].cid in s.web && Newer(s.owner, s.born[key].socket, key.node)
      ensures var pc := s.web[c := WebIdle][s.born[key].cid];
              pc.Holding? ==> pc.socket != s.born[key].socket || !pc.frame.Forward?
    {
      AcceptedAt(s, c, k, frame, key);
      PlaceOf(s, key);
      if !s.inbound[key].moved {
        NewerAt(s.owner, s.born[key].socket, k, key.node);
      }
    }
  }

  lemma KeepPush(s: State, c: Uuid, ok: bool)
    requires Inv(s) && Enabled(s, WebPush(c, ok))
    ensures Intake(DoWebPush(s, c, ok))
  {
    hide Emission, Addressing, Barriers, Streams, MovedOk, AcceptInto, StreamAt;
    KeepWebPc(s, c, WebIdle);
    if ok {
      var Holding(k, frame) := s.web[c];
      var t := DoWebPush(s, c, true);
      PushFlows(s.down, k, Sent(c, frame));
      WebPcAt(s, c);
      PushBarriers(Flows(s.down), s.owner, s.web, s.agent, s.handles, s.quiet, k, Sent(c, frame));
      WebBarriers(Flows(t.down), s.owner, s.web, s.agent, s.handles, s.quiet, c, WebIdle);
      PushMoved(s, c);
      PushStreams(s, c);
    }
  }

  lemma PushStreams(s: State, c: Uuid)
    requires Inv(s) && Enabled(s, WebPush(c, true))
    ensures var t := DoWebPush(s, c, true); Streams(t.inbound, t.born, t.phase, t.handles, t.inserted, t.agent,
                                                    Flows(t.down))
  {
    hide Emission, Addressing, Intake, StreamOk, AcceptInto, Handled;
    var t := DoWebPush(s, c, true);
    PushFlows(s.down, s.web[c].socket, Sent(c, s.web[c].frame));
    forall key | key in t.inbound
      ensures key in s.born && var b := s.born[key];
              StreamOk(t.inbound[key], t.phase[key], Handled(key, b, t.handles[b.socket], t.inserted),
                       t.agent[b.socket],
                       Flows(t.down)[b.socket], key.sid, b.kind)
    {
      AcceptedKeys(s, c, s.web[c].socket, s.web[c].frame);
      StreamIs(s, key);
      PushAim(s, c, key);
      PushStream(s, c, s.web[c].socket, s.web[c].frame, key);
    }
  }

  lemma AcceptedKeys(s: State, c: Uuid, k: nat, frame: DownFrame)
    requires Shape(s) && k < |s.owner|
    ensures AcceptInto(s, c, k, frame).Keys == s.born.Keys
  {
  }

  lemma NodeAt(s: State, n: Uuid)
    requires Shape(s) && Addressing(s) && n in s.nodes
    ensures s.nodes[n] < |s.owner| && s.owner[s.nodes[n]] == n
  {
    hide BornOk, RoutesOk, WebOk, DownOk, AgentsOk, HandlesOk, InsertedOk, TagsOk;
  }

  /** A frame that is no command changes no stream. */
  lemma TellStreams(s: State, k: nat, c: Uuid)
    requires Inv(s) && k < |s.owner|
    ensures Streams(s.inbound, s.born, s.phase, s.handles, s.inserted, s.agent,
                    Flows(s.down[k := s.down[k].Push(Sent(c, ConnectionDisconnect(c)))]))
  {
    hide Emission, Addressing, Barriers, MovedOk, StreamOk;
    var x := Sent(c, ConnectionDisconnect(c));
    PushFlows(s.down, k, x);
    forall key | key in s.inbound && s.born[key].socket == k
      ensures StreamOk(s.inbound[key], s.phase[key], Handled(key, s.born[key], s.handles[k], s.inserted), s.agent[k],
                       Flows(s.down)[k] + [x], key.sid, s.born[key].kind)
    {
      PushOwn(s.inbound[key], s.phase[key], Handled(key, s.born[key], s.handles[k], s.inserted), s.agent[k],
              Flows(s.down)[k], key.sid, s.born[key].kind, x);
      assert s.inbound[key].accepted + [] == s.inbound[key].accepted;
    }
  }

  lemma KeepTell(s: State, c: Uuid, n: Uuid, ok: bool)
    requires Inv(s) && Enabled(s, WebTell(c, n, ok))
    ensures Intake(DoWebTell(s, c, n, ok))
  {
    hide Emission, Addressing, Barriers, Streams, MovedOk;
    NodeAt(s, n);
    var k := s.nodes[n];
    KeepWebPc(s, c, Leaving(s.web[c].visited + {n}));
    if ok {
      PushFlows(s.down, k, Sent(c, ConnectionDisconnect(c)));
      TellBarriers(Flows(s.down), s.owner, s.web, s.agent, s.handles, s.quiet, k, c);
      TellStreams(s, k, c);
    }
  }

  // --- steps of an agent -----------------------------------------------------------------------------

  lemma KeepRegister(s: State, n: Uuid)
    requires Inv(s) && Enabled(s, Register(n))
    ensures Intake(DoRegister(s, n))
  {
    hide Emission, Addressing, Barriers, Streams, MovedOk;
    GrowFlows(s.down);
    GrowStreams(s.inbound, s.born, s.phase, s.handles, s.inserted, s.agent, Flows(s.down));
    GrowMoved(s.inbound, s.born, s.owner, s.web, n);
    GrowBarriers(Flows(s.down), s.owner, s.web, s.agent, s.handles, s.quiet, n);
  }

  lemma GrowStreams(inbound: map<Key, Inbound>, born: map<Key, Birth>, phase: map<Key, Phase>,
                    handles: seq<map<(Uuid, nat), Kind>>, inserted: set<Key>, agent: seq<AgentPc>,
                    flows: seq<seq<Sent>>)
    requires Streams(inbound, born, phase, handles, inserted, agent, flows)
    ensures Streams(inbound, born, phase, handles + [map[]], inserted, agent + [AgentIdle], flows + [[]])
  {
    hide StreamOk;
  }

  lemma GrowMoved(inbound: map<Key, Inbound>, born: map<Key, Birth>, owner: seq<Uuid>, web: map<Uuid, WebPc>, n: Uuid)
    requires MovedOk(inbound, born, owner, web)
    ensures MovedOk(inbound, born, owner + [n], web)
  {
    forall k: nat, node | Newer(owner, k, node) ensures Newer(owner + [n], k, node) {
      var j :| k < j < |owner| && owner[j] == node;
      NewerAt(owner + [n], k, j, node);
    }
  }

  lemma PopStream(s: State, k: nat, pc: AgentPc, key: Key)
    requires Inv(s) && k < |s.owner| && s.agent[k].AgentIdle? && s.down[k].wire != [] && key in s.born
    requires s.born[key].socket == k
    requires pc == AfterPop(s.handles[k], s.down[k].wire[0])
    ensures StreamOk(s.inbound[key], s.phase[key], Handled(key, s.born[key], s.handles[k], s.inserted), pc,
                     Flows(s.down)[k][1..], key.sid, s.born[key].kind)
  {
    hide Emission, NodesOk, RoutesOk, WebOk, AgentsOk, TagsOk, Barriers, MovedOk, StreamOk;
    PopFlows(s.down, k);
    var flow := Flows(s.down)[k];
    assert SentOk(flow[0], s.owner[k], s.born, s.web.Keys);
    var b := s.born[key];
    var handled := Handled(key, b, s.handles[k], s.inserted);
    assert key in s.inserted;
    assert handled ==> (b.cid, key.sid) in s.handles[k] && s.handles[k][(b.cid, key.sid)] == b.kind;
    PopOwn(s.inbound[key], s.phase[key], handled, flow, key.sid, b.kind, pc);
  }

  /** The agent's reader pops a frame that opens no session. */
  lemma PopIntake(s: State, k: nat, pc: AgentPc)
    requires Inv(s) && k < |s.owner| && s.agent[k].AgentIdle? && s.down[k].wire != []
    requires pc == AfterPop(s.handles[k], s.down[k].wire[0])
    ensures Intake(s.(down := s.down[k := s.down[k].Pop()], agent := s.agent[k := pc]))
  {
    hide Emission, NodesOk, BornOk, RoutesOk, WebOk, AgentsOk, HandlesOk, InsertedOk, TagsOk, Barriers, MovedOk,
      StreamOk;
    PopFlows(s.down, k);
    assert SentOk(Flows(s.down)[k][0], s.owner[k], s.born, s.web.Keys);
    PopBarriers(Flows(s.down), s.owner, s.web, s.agent, s.handles, s.quiet, k, pc);
    forall key | key in s.inbound && s.born[key].socket == k
      ensures StreamOk(s.inbound[key], s.phase[key], Handled(key, s.born[key], s.handles[k], s.inserted), pc,
                       Flows(s.down)[k][1..], key.sid, s.born[key].kind)
    {
      PopStream(s, k, pc, key);
    }
  }

  /** No frame on a socket names a session id that has not been handed out. */
  lemma NoneYet(s: State, k: nat, sid: nat)
    requires Shape(s) && Addressing(s) && k < |s.owner| && Key(s.owner[k], sid) !in s.born
    ensures forall i :: 0 <= i < |Flows(s.down)[k]| && Flows(s.down)[k][i].frame.Forward? ==>
      Flows(s.down)[k][i].frame.sid != sid
  {
    hide BornOk, RoutesOk, WebOk, NodesOk, AgentsOk, HandlesOk, InsertedOk, TagsOk;
    forall i | 0 <= i < |Flows(s.down)[k]| && Flows(s.down)[k][i].frame.Forward?
      ensures Flows(s.down)[k][i].frame.sid != sid {
      assert SentOk(Flows(s.down)[k][i], s.owner[k], s.born, s.web.Keys);
    }
  }

  lemma SpawnMoved(inbound: map<Key, Inbound>, born: map<Key, Birth>, owner: seq<Uuid>, web: map<Uuid, WebPc>,
                   key: Key, b: Birth)
    requires MovedOk(inbound, born, owner, web) && key !in born
    ensures MovedOk(inbound[key := Inbound([], [], [], false)], born[key := b], owner, web)
  {
  }

  lemma SpawnStreams(inbound: map<Key, Inbound>, born: map<Key, Birth>, phase: map<Key, Phase>,
                     handles: seq<map<(Uuid, nat), Kind>>, inserted: set<Key>, agent: seq<AgentPc>,
                     flows: seq<seq<Sent>>, key: Key, b: Birth)
    requires Streams(inbound, born, phase, handles, inserted, agent, flows) && key !in born && b.socket < |agent|
    requires b.socket < |handles| && b.socket < |flows| && agent[b.socket].AgentIdle?
    requires Queued(flows[b.socket], key.sid, b.kind) == []
    ensures Streams(inbound[key := Inbound([], [], [], false)], born[key := b], phase[key := Starting], handles,
                    inserted,
                    agent[b.socket := Inserting(b.cid, key.sid, b.kind)], flows)
  {
    forall key2 | key2 in inbound && key2 != key && born[key2].socket == b.socket
      ensures StreamOk(inbound[key2], phase[key2], Handled(key2, born[key2], handles[b.socket], inserted),
                       Inserting(b.cid, key.sid, b.kind), flows[b.socket], key2.sid, born[key2].kind)
    {
    }
    assert StreamOk(Inbound([], [], [], false), Starting, Handled(key, b, handles[b.socket], inserted),
                    Inserting(b.cid, key.sid, b.kind), flows[b.socket], key.sid, b.kind);
  }

  lemma FreshSid(s: State, k: nat)
    requires Shape(s) && Addressing(s) && k < |s.owner|
    ensures Key(s.owner[k], Counter(s.counter, s.owner[k])) !in s.born
  {
    hide RoutesOk, WebOk, NodesOk, DownOk, AgentsOk, HandlesOk, InsertedOk, TagsOk;
  }

  lemma {:induction false} QueuedTail(flow: seq<Sent>, sid: nat, kind: Kind)
    requires flow != [] && Queued(flow, sid, kind) == []
    ensures Queued(flow[1..], sid, kind) == []
  {
  }

  lemma OpenIntake(s: State, k: nat)
    requires Inv(s) && k < |s.owner| && s.agent[k].AgentIdle? && s.down[k].wire != []
      && s.down[k].wire[0].frame.OpenTunnel?
    ensures var Sent(from, frame) := s.down[k].wire[0];
            Intake(Spawn(s.(down := s.down[k := s.down[k].Pop()]), k, from, frame.cid, frame.kind))
  {
    hide Emission, Addressing, Barriers, Streams, MovedOk;
    PopFlows(s.down, k);
    var Sent(from, frame) := s.down[k].wire[0];
    var sid := Counter(s.counter, s.owner[k]);
    var key, b := Key(s.owner[k], sid), Birth(frame.kind, from, frame.cid, k);
    PopBarriers(Flows(s.down), s.owner, s.web, s.agent, s.handles, s.quiet, k, Inserting(frame.cid, sid, frame.kind));
    PopIntake(s, k, AgentIdle);
    FreshSid(s, k);
    NoneYet(s, k, sid);
    QueuedNone(Flows(s.down)[k], sid, frame.kind);
    QueuedTail(Flows(s.down)[k], sid, frame.kind);
    assert s.agent[k := AgentIdle] == s.agent;
    SpawnStreams(s.inbound, s.born, s.phase, s.handles, s.inserted, s.agent,
                 Flows(s.down)[k := Flows(s.down)[k][1..]], key, b);
    SpawnMoved(s.inbound, s.born, s.owner, s.web, key, b);
  }

  lemma ReadElse(s: State, k: nat, body: Bytes, lost: bool)
    requires Shape(s) && Enabled(s, AgentRead(k, body, lost))
    requires s.down[k].wire[0].frame.OpenTunnel? ==> !s.down[k].wire[0].frame.complete
    ensures var t := DoAgentRead(s, k, body, lost);
            SameIn(s.(down := s.down[k := s.down[k].Pop()],
                      agent := s.agent[k := AfterPop(s.handles[k], s.down[k].wire[0])]), t)
  {
    hide Shape, Counter, Takes, AfterPop;
  }

  lemma KeepRead(s: State, k: nat, body: Bytes, lost: bool)
    requires Inv(s) && Enabled(s, AgentRead(k, body, lost))
    ensures Intake(DoAgentRead(s, k, body, lost))
  {
    hide Emission, Addressing, Intake, AfterPop, SameIn;
    var frame := s.down[k].wire[0].frame;
    if frame.OpenTunnel? && frame.complete {
      OpenIntake(s, k);
    } else {
      ReadElse(s, k, body, lost);
      var pc := AfterPop(s.handles[k], s.down[k].wire[0]);
      PopIntake(s, k, pc);
      SameInKeeps(s.(down := s.down[k := s.down[k].Pop()], agent := s.agent[k := pc]), DoAgentRead(s, k, body, lost));
    }
  }

  lemma InsertStreams(inbound: map<Key, Inbound>, born: map<Key, Birth>, phase: map<Key, Phase>,
                      handles: seq<map<(Uuid, nat), Kind>>, inserted: set<Key>, agent: seq<AgentPc>,
                      flows: seq<seq<Sent>>, k: nat, node: Uuid)
    requires Streams(inbound, born, phase, handles, inserted, agent, flows) && k < |agent| && k < |handles|
      && agent[k].Inserting?
    requires var key0 := Key(node, agent[k].sid); key0 in born && born[key0].socket == k && key0 !in inserted
    requires forall key :: key in born && born[key].socket == k ==> key.node == node
    ensures var Inserting(cid, sid, kind) := agent[k];
            Streams(inbound, born, phase, handles[k := handles[k][(cid, sid) := kind]], inserted + {Key(node, sid)},
                    agent[k := AgentIdle], flows)
  {
    hide StreamOk;
    var Inserting(cid, sid, kind) := agent[k];
    var h, inserted' := handles[k][(cid, sid) := kind], inserted + {Key(node, sid)};
    forall key | key in inbound && born[key].socket == k
      ensures StreamOk(inbound[key], phase[key], Handled(key, born[key], h, inserted'), AgentIdle, flows[k], key.sid,
                       born[key].kind)
    {
      var handled := Handled(key, born[key], handles[k], inserted);
      DeliverOwn(inbound[key], phase[key], handled, agent[k], flows[k], key.sid, born[key].kind);
      Weaken(inbound[key], phase[key], phase[key], handled, Handled(key, born[key], h, inserted'), AgentIdle,
             flows[k], key.sid, born[key].kind);
    }
  }

  lemma KeepInsert(s: State, k: nat)
    requires Inv(s) && Enabled(s, AgentInsert(k))
    ensures Intake(DoAgentInsert(s, k))
  {
    hide Emission, Addressing, Barriers, MovedOk, Streams;
    AgentPcAt(s, k);
    var Inserting(cid, sid, kind) := s.agent[k];
    AgentBarriers(Flows(s.down), s.owner, s.web, s.agent, s.handles, s.quiet, k, s.handles[k][(cid, sid) := kind],
                  s.quiet[k]);
    assert s.quiet[k := s.quiet[k]] == s.quiet;
    forall key | key in s.born && s.born[key].socket == k ensures key.node == s.owner[k] {
      PlaceOf(s, key);
    }
    InsertStreams(s.inbound, s.born, s.phase, s.handles, s.inserted, s.agent, Flows(s.down), k, s.owner[k]);
  }

  lemma SetInboundMoved(inbound: map<Key, Inbound>, born: map<Key, Birth>, owner: seq<Uuid>, web: map<Uuid, WebPc>,
                        key: Key, ib: Inbound)
    requires MovedOk(inbound, born, owner, web) && key in inbound && ib.moved == inbound[key].moved
    ensures MovedOk(inbound[key := ib], born, owner, web)
  {
  }

  lemma DeliverStreams(inbound: map<Key, Inbound>, born: map<Key, Birth>, phase: map<Key, Phase>,
                       handles: seq<map<(Uuid, nat), Kind>>, inserted: set<Key>, agent: seq<AgentPc>,
                       flows: seq<seq<Sent>>, k: nat, node: Uuid)
    requires Streams(inbound, born, phase, handles, inserted, agent, flows) && k < |agent| && agent[k].Delivering?
    requires Key(node, agent[k].sid) in inbound && Key(node, agent[k].sid) in phase && Key(node, agent[k].sid) in born
    requires born[Key(node, agent[k].sid)].socket == k
    requires forall key :: key in born && born[key].socket == k ==> key.node == node
    ensures var key0 := Key(node, agent[k].sid);
            var ib := inbound[key0];
            && (phase[key0] != Ended ==>
                  Streams(inbound[key0 := ib.(stdin := ib.stdin + [agent[k].got])], born, phase, handles, inserted,
                          agent[k := AgentIdle], flows))
            && (phase[key0] == Ended ==> Streams(inbound, born, phase, handles, inserted, agent[k := AgentIdle], flows))
  {
    hide StreamOk, Handled;
    forall key | key in inbound && born[key].socket == k
      ensures var handled := Handled(key, born[key], handles[k], inserted);
              && (phase[key] != Ended ==>
                  StreamOk(inbound[key].(stdin := inbound[key].stdin + InHand(agent[k], key.sid)), phase[key],
                           handled,
                                                   AgentIdle, flows[k], key.sid, born[key].kind))
              && (phase[key] == Ended || key.sid != agent[k].sid ==>
                    StreamOk(inbound[key], phase[key], handled, AgentIdle, flows[k], key.sid, born[key].kind))
    {
      DeliverOwn(inbound[key], phase[key], Handled(key, born[key], handles[k], inserted), agent[k], flows[k],
                 key.sid, born[key].kind);
    }
  }

  lemma KeepDeliver(s: State, k: nat)
    requires Inv(s) && Enabled(s, AgentDeliver(k))
    ensures Intake(DoAgentDeliver(s, k))
  {
    hide Emission, Addressing, Barriers, MovedOk, Streams;
    AgentPcAt(s, k);
    var Delivering(got, sid) := s.agent[k];
    var key0 := Key(s.owner[k], sid);
    AgentBarriers(Flows(s.down), s.owner, s.web, s.agent, s.handles, s.quiet, k, s.handles[k], s.quiet[k]);
    assert s.quiet[k := s.quiet[k]] == s.quiet && s.handles[k := s.handles[k]] == s.handles;
    SetInboundMoved(s.inbound, s.born, s.owner, s.web, key0, s.inbound[key0].(stdin := s.inbound[key0].stdin + [got]));
    forall key | key in s.born && s.born[key].socket == k ensures key.node == s.owner[k] {
      PlaceOf(s, key);
    }
    DeliverStreams(s.inbound, s.born, s.phase, s.handles, s.inserted, s.agent, Flows(s.down), k, s.owner[k]);
  }

  lemma KeepUnhandle(s: State, k: nat, h: (Uuid, nat))
    requires Inv(s) && k < |s.owner|
    ensures Intake(Unhandle(s, k, h))
  {
    hide Emission, Addressing, Barriers, MovedOk, StreamOk;
    UnhandleBarriers(Flows(s.down), s.owner, s.web, s.agent, s.handles, s.quiet, k, h);
    forall key | key in s.inbound && s.born[key].socket == k
      ensures StreamOk(s.inbound[key], s.phase[key], Handled(key, s.born[key], s.handles[k] - {h}, s.inserted),
                       s.agent[k],
                       Flows(s.down)[k], key.sid, s.born[key].kind)
    {
      Weaken(s.inbound[key], s.phase[key], s.phase[key], Handled(key, s.born[key], s.handles[k], s.inserted),
             Handled(key, s.born[key], s.handles[k] - {h}, s.inserted), s.agent[k], Flows(s.down)[k], key.sid,
               s.born[key].kind);
    }
  }

  lemma KeepClose(s: State, k: nat, h: (Uuid, nat))
    requires Inv(s) && Enabled(s, AgentClose(k, h))
    ensures Intake(DoAgentClose(s, k, h))
  {
    hide Inv, Emission, Addressing, Barriers, MovedOk, Streams, Intake;
    KeepUnhandle(s, k, h);
  }

  lemma KeepDrop(s: State, k: nat, h: (Uuid, nat))
    requires Inv(s) && Enabled(s, AgentDrop(k, h))
    ensures Intake(DoAgentDrop(s, k, h))
  {
    hide Inv, Emission, Addressing, Barriers, MovedOk, Streams, Intake;
    KeepUnhandle(s, k, h);
  }

  lemma KeepCloseEnd(s: State, k: nat)
    requires Inv(s) && Enabled(s, AgentCloseEnd(k))
    ensures Intake(DoAgentCloseEnd(s, k))
  {
    hide Emission, Addressing, Barriers, MovedOk, StreamOk;
    var cid := s.agent[k].cid;
    AgentBarriers(Flows(s.down), s.owner, s.web, s.agent, s.handles, s.quiet, k, s.handles[k], s.quiet[k] + {cid});
    assert s.handles[k := s.handles[k]] == s.handles;
    forall key | key in s.inbound && s.born[key].socket == k
      ensures StreamOk(s.inbound[key], s.phase[key], Handled(key, s.born[key], s.handles[k], s.inserted), AgentIdle,
                       Flows(s.down)[k], key.sid, s.born[key].kind)
    {
      DeliverOwn(s.inbound[key], s.phase[key], Handled(key, s.born[key], s.handles[k], s.inserted), s.agent[k],
                 Flows(s.down)[k], key.sid, s.born[key].kind);
    }
  }

  // --- steps of a session task --------------------------------------------------------------------------

  lemma SetStream(inbound: map<Key, Inbound>, born: map<Key, Birth>, phase: map<Key, Phase>,
                  handles: seq<map<(Uuid, nat), Kind>>, inserted: set<Key>, agent: seq<AgentPc>,
                  flows: seq<seq<Sent>>, key: Key, ib: Inbound, next: Phase)
    requires Streams(inbound, born, phase, handles, inserted, agent, flows) && key in inbound
    requires var b := born[key];
             StreamOk(ib, next, Handled(key, b, handles[b.socket], inserted), agent[b.socket], flows[b.socket],
                      key.sid, b.kind)
    ensures Streams(inbound[key := ib], born, phase[key := next], handles, inserted, agent, flows)
  {
    hide StreamOk;
  }

  lemma StreamIs(s: State, key: Key)
    requires Shape(s) && Intake(s) && key in s.born
    ensures StreamAt(s, key)
  {
    hide Barriers, MovedOk, StreamOk;
  }

  lemma KeepEmit(s: State, key: Key, frame: UpFrame, next: Phase, lost: bool)
    requires Inv(s) && Enabled(s, Emit(key, frame, next, lost))
    ensures Intake(DoEmit(s, key, frame, next, lost))
  {
    hide Emission, Addressing, Barriers, MovedOk, Streams, StreamOk, Handled, MayEmit;
    var b := s.born[key];
    var t := DoEmit(s, key, frame, next, lost);
    StreamIs(s, key);
    NotEnded(b, key.sid, s.phase[key], frame, next);
    Weaken(s.inbound[key], s.phase[key], next, Handled(key, b, s.handles[b.socket], s.inserted),
           Handled(key, b, s.handles[b.socket], s.inserted),
           s.agent[b.socket], Flows(s.down)[b.socket], key.sid, b.kind);
    SetStream(s.inbound, s.born, s.phase, s.handles, s.inserted, s.agent, Flows(s.down), key, s.inbound[key], next);
    assert s.inbound[key := s.inbound[key]] == s.inbound;
  }

  lemma NotEnded(b: Birth, sid: nat, phase: Phase, frame: UpFrame, next: Phase)
    requires MayEmit(b, sid, phase, frame, next)
    ensures phase != Ended
  {
  }

  lemma KeepConsume(s: State, key: Key)
    requires Inv(s) && Enabled(s, Consume(key))
    ensures Intake(DoConsume(s, key))
  {
    hide Emission, Addressing, Barriers, MovedOk, Streams, StreamOk, Handled;
    var b := s.born[key];
    var t := DoConsume(s, key);
    StreamIs(s, key);
    SetInboundMoved(s.inbound, s.born, s.owner, s.web, key, t.inbound[key]);
    ConsumeOwn(s.inbound[key], Handled(key, b, s.handles[b.socket], s.inserted), s.agent[b.socket],
               Flows(s.down)[b.socket], key.sid, b.kind);
    SetStream(s.inbound, s.born, s.phase, s.handles, s.inserted, s.agent, Flows(s.down), key, t.inbound[key], Live);
    assert s.phase[key := Live] == s.phase;
  }

  lemma KeepMoveDown(s: State, k: nat)
    requires Inv(s) && Enabled(s, MoveDown(k))
    ensures Intake(DoMoveDown(s, k))
  {
    hide Emission, Addressing, Barriers, MovedOk, Streams;
    MoveFlows(s.down, k);
  }

  // --- steps that touch none of this ---------------------------------------------------------------------

  predicate SameIn(s: State, t: State) {
    && t.down == s.down && t.owner == s.owner && t.web == s.web && t.agent == s.agent && t.handles == s.handles
    && t.quiet == s.quiet && t.inbound == s.inbound && t.born == s.born && t.phase == s.phase
      && t.inserted == s.inserted
  }

  lemma SameInKeeps(s: State, t: State)
    requires Intake(s) && SameIn(s, t)
    ensures Intake(t)
  {
    hide Barriers, Streams, MovedOk;
  }

  lemma KeepServe(s: State, k: nat)
    requires Inv(s) && Enabled(s, ServeFrame(k))
    ensures Intake(DoServeFrame(s, k))
  {
    hide Addressing, Emission, Intake;
    SameInKeeps(s, DoServeFrame(s, k));
  }

  lemma KeepNotify(s: State, k: nat, ok: bool)
    requires Inv(s) && Enabled(s, ServeNotify(k, ok))
    ensures Intake(DoServeNotify(s, k, ok))
  {
    hide Addressing, Emission, Intake;
    SameInKeeps(s, DoServeNotify(s, k, ok));
  }

  lemma KeepEnd(s: State, k: nat)
    requires Inv(s) && Enabled(s, ServeEnd(k))
    ensures Intake(DoServeEnd(s, k))
  {
    hide Addressing, Emission, Intake;
    SameInKeeps(s, DoServeEnd(s, k));
  }

  lemma KeepCollect(s: State, k: nat, key: Key)
    requires Inv(s) && Enabled(s, Collect(k, key))
    ensures Intake(DoCollect(s, k, key))
  {
    hide Addressing, Emission, Intake;
    SameInKeeps(s, DoCollect(s, k, key));
  }

  lemma KeepCollectEnd(s: State, k: nat)
    requires Inv(s) && Enabled(s, CollectEnd(k))
    ensures Intake(DoCollectEnd(s, k))
  {
    hide Addressing, Emission, Intake;
    SameInKeeps(s, DoCollectEnd(s, k));
  }

  lemma KeepSweepOne(s: State, k: nat)
    requires Inv(s) && Enabled(s, SweepOne(k))
    ensures Intake(DoSweepOne(s, k))
  {
    hide Addressing, Emission, Intake;
    SameInKeeps(s, DoSweepOne(s, k));
  }

  lemma KeepInform(s: State, k: nat, ok: bool)
    requires Inv(s) && Enabled(s, Inform(k, ok))
    ensures Intake(DoInform(s, k, ok))
  {
    hide Addressing, Emission, Intake;
    SameInKeeps(s, DoInform(s, k, ok));
  }

  lemma KeepSweepEnd(s: State, k: nat)
    requires Inv(s) && Enabled(s, SweepEnd(k))
    ensures Intake(DoSweepEnd(s, k))
  {
    hide Addressing, Emission, Intake;
    SameInKeeps(s, DoSweepEnd(s, k));
  }

  lemma KeepStaleNode(s: State, n: Uuid)
    requires Inv(s) && Enabled(s, StaleNode(n))
    ensures Intake(DoStaleNode(s, n))
  {
    hide Addressing, Emission, Intake;
    SameInKeeps(s, DoStaleNode(s, n));
  }

  lemma KeepStaleConnection(s: State, c: Uuid)
    requires Inv(s) && Enabled(s, StaleConnection(c))
    ensures Intake(DoStaleConnection(s, c))
  {
    hide Addressing, Emission, Intake;
    SameInKeeps(s, DoStaleConnection(s, c));
  }

  lemma KeepMoveUp(s: State, k: nat)
    requires Inv(s) && Enabled(s, MoveUp(k))
    ensures Intake(DoMoveUp(s, k))
  {
    hide Addressing, Emission, Intake;
    SameInKeeps(s, DoMoveUp(s, k));
  }

  lemma KeepLoseUp(s: State, k: nat)
    requires Inv(s) && Enabled(s, LoseUp(k))
    ensures Intake(DoLoseUp(s, k))
  {
    hide Addressing, Emission, Intake;
    SameInKeeps(s, DoLoseUp(s, k));
  }

  lemma KeepIntakeWeb(s: State, e: Event)
    requires Inv(s) && Enabled(s, e) && WebStep(e)
    ensures Intake(Apply(s, e))
  {
    hide Inv, Shape, Enabled, Intake, Frame, SocketFrame, OnlyReader, SameTables, Route;
    hide DoAccept, DoWebOpen, DoWebRoute, DoWebResolve, DoWebPush, DoWebLeave, DoWebTell, DoWebGone,
         DoRegister, DoServeFrame, DoServeNotify, DoServeEnd, DoCollect, DoCollectEnd, DoSweepOne, DoInform,
         DoSweepEnd, DoStaleNode, DoStaleConnection, DoMoveDown, DoMoveUp, DoLoseUp, DoAgentRead, DoAgentInsert,
         DoAgentDeliver, DoAgentClose, DoAgentCloseEnd, DoAgentDrop, DoEmit, DoConsume;
    match e
    case Accept(c) => KeepAccept(s, c);
    case WebOpen(c, n, kind, complete) => KeepOpen(s, c, n, kind, complete);
    case WebRoute(c, n, sid, cmd) => KeepRoute(s, c, n, sid, cmd);
    case WebResolve(c) => KeepResolve(s, c);
    case WebPush(c, ok) => KeepPush(s, c, ok);
    case WebLeave(c) => KeepLeave(s, c);
    case WebTell(c, n, ok) => KeepTell(s, c, n, ok);
    case WebGone(c) => KeepGone(s, c);
  }

  lemma KeepIntakeServer(s: State, e: Event)
    requires Inv(s) && Enabled(s, e) && ServerStep(e)
    ensures Intake(Apply(s, e))
  {
    hide Inv, Shape, Enabled, Intake, Frame, SocketFrame, OnlyReader, SameTables, Route;
    hide DoRegister, DoServeFrame, DoServeNotify, DoServeEnd, DoCollect, DoCollectEnd, DoSweepOne, DoInform,
         DoSweepEnd, DoStaleNode, DoStaleConnection, DoAccept, DoWebOpen, DoWebRoute, DoWebResolve, DoWebPush,
         DoWebLeave, DoWebTell, DoWebGone, DoMoveDown, DoMoveUp, DoLoseUp, DoAgentRead, DoAgentInsert,
         DoAgentDeliver, DoAgentClose, DoAgentCloseEnd, DoAgentDrop, DoEmit, DoConsume;
    match e
    case Register(n) => KeepRegister(s, n);
    case ServeFrame(k) => KeepServe(s, k);
    case ServeNotify(k, ok) => KeepNotify(s, k, ok);
    case ServeEnd(k) => KeepEnd(s, k);
    case Collect(k, key) => KeepCollect(s, k, key);
    case CollectEnd(k) => KeepCollectEnd(s, k);
    case SweepOne(k) => KeepSweepOne(s, k);
    case Inform(k, ok) => KeepInform(s, k, ok);
    case SweepEnd(k) => KeepSweepEnd(s, k);
    case StaleNode(n) => KeepStaleNode(s, n);
    case StaleConnection(c) => KeepStaleConnection(s, c);
  }

  lemma KeepIntakeAgent(s: State, e: Event)
    requires Inv(s) && Enabled(s, e) && !WebStep(e) && !ServerStep(e)
    ensures Intake(Apply(s, e))
  {
    hide Inv, Shape, Enabled, Intake, Frame, SocketFrame, OnlyReader, SameTables, Route;
    hide DoMoveDown, DoMoveUp, DoLoseUp, DoAgentRead, DoAgentInsert, DoAgentDeliver, DoAgentClose, DoAgentCloseEnd,
         DoAgentDrop, DoEmit, DoConsume, DoAccept, DoWebOpen, DoWebRoute, DoWebResolve, DoWebPush,
         DoWebLeave, DoWebTell, DoWebGone, DoRegister, DoServeFrame, DoServeNotify, DoServeEnd, DoCollect,
         DoCollectEnd, DoSweepOne, DoInform, DoSweepEnd, DoStaleNode, DoStaleConnection;
    match e
    case MoveDown(k) => KeepMoveDown(s, k);
    case MoveUp(k) => KeepMoveUp(s, k);
    case LoseUp(k) => KeepLoseUp(s, k);
    case AgentRead(k, body, lost) => KeepRead(s, k, body, lost);
    case AgentInsert(k) => KeepInsert(s, k);
    case AgentDeliver(k) => KeepDeliver(s, k);
    case AgentClose(k, h) => KeepClose(s, k, h);
    case AgentCloseEnd(k) => KeepCloseEnd(s, k);
    case AgentDrop(k, h) => KeepDrop(s, k, h);
    case Emit(key, frame, next, lost) => KeepEmit(s, key, frame, next, lost);
    case Consume(key) => KeepConsume(s, key);
  }

  lemma KeepIntake(s: State, e: Event)
    requires Inv(s) && Enabled(s, e)
    ensures Intake(Apply(s, e))
  {
    hide Inv, Shape, Enabled, Apply, Intake;
    if WebStep(e) {
      KeepIntakeWeb(s, e);
    } else if ServerStep(e) {
      KeepIntakeServer(s, e);
    } else {
      KeepIntakeAgent(s, e);
    }
  }
}
