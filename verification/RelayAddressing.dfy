/** Every step keeps the tables of the relay consistent with who created what. */
module RelayAddressing {
  import opened Protocol
  import opened Pipes
  import opened RelayModel
  import opened RelayInvariants

  // --- one column at a time ----------------------------------------------------------

  ghost predicate Wider(born: map<Key, Birth>, born': map<Key, Birth>) {
    forall key :: key in born ==> key in born' && born'[key] == born[key]
  }

  lemma PushDown(flows: seq<seq<Sent>>, owner: seq<Uuid>, born: map<Key, Birth>, cids: set<Uuid>, k: nat, x: Sent)
    requires DownOk(flows, owner, born, cids) && k < |flows| && SentOk(x, owner[k], born, cids)
    ensures DownOk(flows[k := flows[k] + [x]], owner, born, cids)
  {
  }

  lemma PopDown(flows: seq<seq<Sent>>, owner: seq<Uuid>, born: map<Key, Birth>, cids: set<Uuid>, k: nat)
    requires DownOk(flows, owner, born, cids) && k < |flows| && flows[k] != []
    ensures DownOk(flows[k := flows[k][1..]], owner, born, cids)
    ensures SentOk(flows[k][0], owner[k], born, cids)
  {
  }

  lemma GrowDown(flows: seq<seq<Sent>>, owner: seq<Uuid>, born: map<Key, Birth>, cids: set<Uuid>, n: Uuid)
    requires DownOk(flows, owner, born, cids)
    ensures DownOk(flows + [[]], owner + [n], born, cids)
  {
  }

  lemma MoreDown(flows: seq<seq<Sent>>, owner: seq<Uuid>, born: map<Key, Birth>, born': map<Key, Birth>,
                 cids: set<Uuid>, cids': set<Uuid>)
    requires DownOk(flows, owner, born, cids) && cids <= cids' && Wider(born, born')
    ensures DownOk(flows, owner, born', cids')
  {
    forall k, i | 0 <= k < |flows| && 0 <= i < |flows[k]| ensures SentOk(flows[k][i], owner[k], born', cids') {
      assert SentOk(flows[k][i], owner[k], born, cids);
    }
  }

  lemma SetWeb(web: map<Uuid, WebPc>, owner: seq<Uuid>, born: map<Key, Birth>, c: Uuid, pc: WebPc)
    requires WebOk(web, owner, born) && WebPcOk(c, pc, owner, born)
    ensures WebOk(web[c := pc], owner, born)
  {
  }

  lemma GrowWeb(web: map<Uuid, WebPc>, owner: seq<Uuid>, born: map<Key, Birth>, n: Uuid)
    requires WebOk(web, owner, born)
    ensures WebOk(web, owner + [n], born)
  {
    forall c | c in web ensures WebPcOk(c, web[c], owner + [n], born) {
      assert WebPcOk(c, web[c], owner, born);
    }
  }

  lemma MoreWeb(web: map<Uuid, WebPc>, owner: seq<Uuid>, born: map<Key, Birth>, born': map<Key, Birth>)
    requires WebOk(web, owner, born) && Wider(born, born')
    ensures WebOk(web, owner, born')
  {
    forall c | c in web ensures WebPcOk(c, web[c], owner, born') {
      assert WebPcOk(c, web[c], owner, born);
    }
  }

  lemma GrowAgents(agent: seq<AgentPc>, handles: seq<map<(Uuid, nat), Kind>>, owner: seq<Uuid>, born: map<Key, Birth>,
                   inserted: set<Key>, n: Uuid)
    requires AgentsOk(agent, owner, born, inserted) && HandlesOk(handles, owner, born, inserted)
    requires InsertedOk(born, inserted, agent)
    ensures AgentsOk(agent + [AgentIdle], owner + [n], born, inserted)
    ensures HandlesOk(handles + [map[]], owner + [n], born, inserted)
    ensures InsertedOk(born, inserted, agent + [AgentIdle])
  {
  }

  /** A pc that is not `Inserting` may be replaced by any good pc that is not either. */
  lemma SetAgent(agent: seq<AgentPc>, owner: seq<Uuid>, born: map<Key, Birth>, inserted: set<Key>, k: nat, pc: AgentPc)
    requires AgentsOk(agent, owner, born, inserted) && InsertedOk(born, inserted, agent)
    requires k < |agent| && !agent[k].Inserting? && AgentPcOk(k, pc, owner[k], born, inserted)
    ensures AgentsOk(agent[k := pc], owner, born, inserted) && InsertedOk(born, inserted, agent[k := pc])
  {
  }

  lemma RemoveHandle(handles: seq<map<(Uuid, nat), Kind>>, owner: seq<Uuid>, born: map<Key, Birth>,
                     inserted: set<Key>, k: nat, h: (Uuid, nat))
    requires HandlesOk(handles, owner, born, inserted) && k < |handles|
    ensures HandlesOk(handles[k := handles[k] - {h}], owner, born, inserted)
  {
  }

  lemma SetOutbound(routes: map<Key, (Uuid, Uuid)>, born: map<Key, Birth>, outbound: map<Key, Outbound>, key: Key,
                    ob: Outbound)
    requires RoutesOk(routes, born, outbound)
    requires key in routes ==> WasOpened(ob) && !Retired(ob)
    ensures RoutesOk(routes, born, outbound[key := ob])
  {
  }

  lemma SetInbound(inbound: map<Key, Inbound>, born: map<Key, Birth>, key: Key, ib: Inbound)
    requires TagsOk(inbound, born) && key in born
    requires From(ib.stdin, born[key].creator) && From(ib.consumed, born[key].creator)
    ensures TagsOk(inbound[key := ib], born)
  {
  }

  ghost predicate Kept(t: State) {
    Shape(t) && Addressing(t)
  }

  // --- one step at a time --------------------------------------------------------------

  lemma KeepAccept(s: State, c: Uuid)
    requires Inv(s) && Enabled(s, Accept(c))
    ensures Kept(DoAccept(s, c))
  {
    hide Emission, Intake;
    hide NodesOk, RoutesOk, WebOk, DownOk, AgentsOk, HandlesOk, InsertedOk, TagsOk;
    var t := DoAccept(s, c);
    assert t.web.Keys == s.web.Keys + {c};
    SetWeb(s.web, s.owner, s.born, c, WebIdle);
    assert Wider(s.born, s.born);
    MoreDown(Flows(s.down), s.owner, s.born, s.born, s.web.Keys, t.web.Keys);
  }

  /** Steps of a browser's reader that only change where it stands. */
  lemma KeepWebPc(s: State, c: Uuid, pc: WebPc)
    requires Shape(s) && Addressing(s) && c in s.web && WebPcOk(c, pc, s.owner, s.born)
    ensures var t := s.(web := s.web[c := pc]); Shape(t) && Addressing(t)
  {
    hide NodesOk, RoutesOk, WebOk, DownOk, AgentsOk, HandlesOk, InsertedOk, TagsOk, BornOk;
    assert s.web[c := pc].Keys == s.web.Keys;
    SetWeb(s.web, s.owner, s.born, c, pc);
  }

  lemma KeepOpen(s: State, c: Uuid, n: Uuid, kind: Kind, complete: bool)
    requires Inv(s) && Enabled(s, WebOpen(c, n, kind, complete))
    ensures Kept(DoWebOpen(s, c, n, kind, complete))
  {
    hide Emission, Intake;
    hide RoutesOk, WebOk, DownOk, AgentsOk, HandlesOk, InsertedOk, TagsOk, BornOk;
    if n in s.nodes {
      KeepWebPc(s, c, Holding(s.nodes[n], OpenTunnel(c, kind, complete)));
    }
  }

  lemma KeepRoute(s: State, c: Uuid, n: Uuid, sid: nat, cmd: Command)
    requires Inv(s) && Enabled(s, WebRoute(c, n, sid, cmd))
    ensures Kept(DoWebRoute(s, c, n, sid, cmd))
  {
    hide Emission, Intake;
    hide NodesOk, WebOk, DownOk, AgentsOk, HandlesOk, InsertedOk, TagsOk, BornOk;
    if NodeByCidAndSid(s.routes, c, n, sid).Some? {
      KeepWebPc(s, c, Routed(n, sid, cmd));
    }
  }

  lemma KeepResolve(s: State, c: Uuid)
    requires Inv(s) && Enabled(s, WebResolve(c))
    ensures Kept(DoWebResolve(s, c))
  {
    hide Emission, Intake;
    hide RoutesOk, DownOk, AgentsOk, HandlesOk, InsertedOk, TagsOk;
    var Routed(n, sid, cmd) := s.web[c];
    assert WebPcOk(c, s.web[c], s.owner, s.born);
    var pc := if n in s.nodes then Holding(s.nodes[n], Forward(c, sid, cmd)) else WebIdle;
    assert WebPcOk(c, pc, s.owner, s.born) by {
      if n in s.nodes {
        assert s.born[Key(n, sid)].socket <= s.nodes[n];
      }
    }
    KeepWebPc(s, c, pc);
  }

  lemma PushShape(s: State, c: Uuid, ok: bool)
    requires Shape(s) && Enabled(s, WebPush(c, ok))
    ensures Shape(DoWebPush(s, c, ok))
  {
  }

  lemma PushTags(s: State, c: Uuid, k: nat, frame: DownFrame)
    requires Shape(s) && k < |s.owner| && TagsOk(s.inbound, s.born)
    ensures TagsOk(AcceptInto(s, c, k, frame), s.born)
  {
  }

  lemma WebAt(s: State, c: Uuid)
    requires Shape(s) && Addressing(s) && c in s.web
    ensures WebPcOk(c, s.web[c], s.owner, s.born)
  {
    hide NodesOk, DownOk, AgentsOk, BornOk, TagsOk, HandlesOk, InsertedOk, RoutesOk;
  }

  lemma KeepPush(s: State, c: Uuid, ok: bool)
    requires Inv(s) && Enabled(s, WebPush(c, ok))
    ensures Kept(DoWebPush(s, c, ok))
  {
    hide Emission, Intake, NodesOk, DownOk, WebOk, BornOk, TagsOk, HandlesOk, InsertedOk, AgentsOk, RoutesOk,
      AcceptInto;
    var Holding(k, frame) := s.web[c];
    WebAt(s, c);
    KeepWebPc(s, c, WebIdle);
    PushShape(s, c, ok);
    if ok {
      PushFlows(s.down, k, Sent(c, frame));
      PushDown(Flows(s.down), s.owner, s.born, s.web.Keys, k, Sent(c, frame));
      assert s.web[c := WebIdle].Keys == s.web.Keys;
      PushTags(s, c, k, frame);
    }
  }

  lemma KeepTell(s: State, c: Uuid, n: Uuid, ok: bool)
    requires Inv(s) && Enabled(s, WebTell(c, n, ok))
    ensures Kept(DoWebTell(s, c, n, ok))
  {
    hide Emission, Intake;
    hide NodesOk, RoutesOk, DownOk, AgentsOk, HandlesOk, InsertedOk, BornOk, TagsOk, WebOk;
    var k := s.nodes[n];
    KeepWebPc(s, c, Leaving(s.web[c].visited + {n}));
    if ok {
      var x := Sent(c, ConnectionDisconnect(c));
      PushFlows(s.down, k, x);
      PushDown(Flows(s.down), s.owner, s.born, s.web.Keys, k, x);
      assert s.web[c := Leaving(s.web[c].visited + {n})].Keys == s.web.Keys;
    }
  }

  lemma KeepRegister(s: State, n: Uuid)
    requires Inv(s) && Enabled(s, Register(n))
    ensures Kept(DoRegister(s, n))
  {
    hide Emission, Intake;
    hide RoutesOk, DownOk, AgentsOk, HandlesOk, InsertedOk, TagsOk, WebOk;
    GrowFlows(s.down);
    GrowDown(Flows(s.down), s.owner, s.born, s.web.Keys, n);
    GrowAgents(s.agent, s.handles, s.owner, s.born, s.inserted, n);
    GrowWeb(s.web, s.owner, s.born, n);
  }

  lemma ServeRoutes(routes: map<Key, (Uuid, Uuid)>, born: map<Key, Birth>, outbound: map<Key, Outbound>,
                    phase: map<Key, Phase>, k: nat, node: Uuid, x: Emitted)
    requires RoutesOk(routes, born, outbound) && OutboundOk(outbound, born, phase)
    requires EmittedOk(x, k, node, born, outbound)
    ensures var (routes', target) := Route(routes, node, x.frame);
            RoutesOk(routes', born, HearIn(outbound, node, x.source, target.None?))
  {
    if x.source.Session? {
      var key := Key(node, x.source.sid);
      assert ProducedOk(born[key], key.sid, phase[key], outbound[key]);
    }
  }

  lemma KeepServe(s: State, k: nat)
    requires Inv(s) && Enabled(s, ServeFrame(k))
    ensures Kept(DoServeFrame(s, k))
  {
    hide Intake, NodesOk, BornOk, DownOk, AgentsOk, HandlesOk, InsertedOk, TagsOk, WebOk, RoutesOk;
    hide ReadersOk, InboxesOk, FreshOk, Conserved, OutboundOk, FlowOk, Route;
    PopFlows(s.up, k);
    var x := s.up[k].wire[0];
    assert FlowOk(Flows(s.up)[k], k, s.owner[k], s.born, s.outbound);
    HeadOk(Flows(s.up)[k], k, s.owner[k], s.born, s.outbound);
    ServeRoutes(s.routes, s.born, s.outbound, s.phase, k, s.owner[k], x);
    var t := DoServeFrame(s, k);
    assert t.outbound.Keys == s.outbound.Keys;
  }

  lemma HeadOk(flow: seq<Emitted>, k: nat, node: Uuid, born: map<Key, Birth>, outbound: map<Key, Outbound>)
    requires FlowOk(flow, k, node, born, outbound) && flow != []
    ensures EmittedOk(flow[0], k, node, born, outbound)
  {
  }

  lemma ExtendsWider(born: map<Key, Birth>, key: Key, b: Birth)
    requires key !in born
    ensures Extends(born, key, b, born[key := b]) && Wider(born, born[key := b])
  {
  }

  ghost predicate Extends(born: map<Key, Birth>, key: Key, b: Birth, born': map<Key, Birth>) {
    key !in born && born' == born[key := b]
  }

  lemma SpawnTables(routes: map<Key, (Uuid, Uuid)>, born: map<Key, Birth>, born': map<Key, Birth>,
                    outbound: map<Key, Outbound>, inbound: map<Key, Inbound>, key: Key, b: Birth)
    requires RoutesOk(routes, born, outbound) && TagsOk(inbound, born) && Extends(born, key, b, born')
    ensures RoutesOk(routes, born', outbound[key := Outbound([], {}, 0)])
    ensures TagsOk(inbound[key := Inbound([], [], [], false)], born')
  {
  }

  lemma SpawnAgents(agent: seq<AgentPc>, handles: seq<map<(Uuid, nat), Kind>>, owner: seq<Uuid>, inserted: set<Key>,
                    born: map<Key, Birth>, born': map<Key, Birth>, key: Key, b: Birth)
    requires AgentsOk(agent, owner, born, inserted) && HandlesOk(handles, owner, born, inserted)
    requires InsertedOk(born, inserted, agent) && Extends(born, key, b, born')
    requires b.socket < |agent| && agent[b.socket].AgentIdle? && key.node == owner[b.socket]
    ensures var agent' := agent[b.socket := Inserting(b.cid, key.sid, b.kind)];
            AgentsOk(agent', owner, born', inserted) && InsertedOk(born', inserted, agent')
    ensures HandlesOk(handles, owner, born', inserted)
  {
  }

  lemma SpawnBorn(born: map<Key, Birth>, born': map<Key, Birth>, owner: seq<Uuid>, counter: map<Uuid, nat>,
                  cids: set<Uuid>, key: Key, b: Birth)
    requires BornOk(born, owner, counter, cids) && born' == born[key := b]
    requires b.creator == b.cid && b.cid in cids && b.socket < |owner| && owner[b.socket] == key.node
    requires key.sid == Counter(counter, key.node)
    ensures key !in born
    ensures BornOk(born', owner, counter[key.node := key.sid + 1], cids)
  {
  }

  lemma SpawnShape(s: State, k: nat, from: Uuid, cid: Uuid, kind: Kind)
    requires Shape(s) && k < |s.owner|
    ensures Shape(Spawn(s, k, from, cid, kind))
  {
  }

  lemma KeepSpawn(s: State, k: nat, from: Uuid, cid: Uuid, kind: Kind)
    requires Shape(s) && Addressing(s) && k < |s.owner| && from == cid && cid in s.web && s.agent[k].AgentIdle?
    ensures Kept(Spawn(s, k, from, cid, kind))
  {
    hide NodesOk, DownOk, WebOk, BornOk, TagsOk, HandlesOk, InsertedOk, AgentsOk, RoutesOk, Counter, Extends, Wider;
    SpawnShape(s, k, from, cid, kind);
    var key := Key(s.owner[k], Counter(s.counter, s.owner[k]));
    var b := Birth(kind, from, cid, k);
    var born' := s.born[key := b];
    SpawnBorn(s.born, born', s.owner, s.counter, s.web.Keys, key, b);
    ExtendsWider(s.born, key, b);
    SpawnTables(s.routes, s.born, born', s.outbound, s.inbound, key, b);
    SpawnAgents(s.agent, s.handles, s.owner, s.inserted, s.born, born', key, b);
    MoreDown(Flows(s.down), s.owner, s.born, born', s.web.Keys, s.web.Keys);
    MoreWeb(s.web, s.owner, s.born, born');
  }

  lemma AfterPopOk(handles: seq<map<(Uuid, nat), Kind>>, owner: seq<Uuid>, born: map<Key, Birth>, inserted: set<Key>,
                   cids: set<Uuid>, k: nat, x: Sent)
    requires HandlesOk(handles, owner, born, inserted) && k < |owner| && SentOk(x, owner[k], born, cids)
    ensures AgentPcOk(k, AfterPop(handles[k], x), owner[k], born, inserted)
  {
  }

  lemma KeepRead(s: State, k: nat, body: Bytes, lost: bool)
    requires Inv(s) && Enabled(s, AgentRead(k, body, lost))
    ensures Kept(DoAgentRead(s, k, body, lost))
  {
    hide Emission, Intake, NodesOk, DownOk, WebOk, BornOk, TagsOk, HandlesOk, InsertedOk, AgentsOk, RoutesOk,
      Counter, AfterPop, AgentPcOk;
    PopFlows(s.down, k);
    PopDown(Flows(s.down), s.owner, s.born, s.web.Keys, k);
    var x := s.down[k].wire[0];
    if x.frame.OpenTunnel? && x.frame.complete {
      KeepSpawn(s.(down := s.down[k := s.down[k].Pop()]), k, x.from, x.frame.cid, x.frame.kind);
    } else {
      AfterPopOk(s.handles, s.owner, s.born, s.inserted, s.web.Keys, k, x);
      SetAgent(s.agent, s.owner, s.born, s.inserted, k, AfterPop(s.handles[k], x));
    }
  }

  lemma InsertHandle(agent: seq<AgentPc>, handles: seq<map<(Uuid, nat), Kind>>, owner: seq<Uuid>, inserted: set<Key>,
                     born: map<Key, Birth>, k: nat)
    requires AgentsOk(agent, owner, born, inserted) && HandlesOk(handles, owner, born, inserted)
    requires InsertedOk(born, inserted, agent) && k < |agent| && agent[k].Inserting?
    requires forall key :: key in born ==> born[key].socket < |owner| && owner[born[key].socket] == key.node
    ensures var Inserting(cid, sid, kind) := agent[k];
            var inserted' := inserted + {Key(owner[k], sid)};
            && AgentsOk(agent[k := AgentIdle], owner, born, inserted')
            && InsertedOk(born, inserted', agent[k := AgentIdle])
            && HandlesOk(handles[k := handles[k][(cid, sid) := kind]], owner, born, inserted')
            && (cid, sid) !in handles[k]
  {
    assert AgentPcOk(k, agent[k], owner[k], born, inserted);
    var key := Key(owner[k], agent[k].sid);
    forall j | 0 <= j < |agent| && j != k
      ensures AgentPcOk(j, agent[j], owner[j], born, inserted + {key})
    {
      assert AgentPcOk(j, agent[j], owner[j], born, inserted);
    }
  }

  lemma KeepInsert(s: State, k: nat)
    requires Inv(s) && Enabled(s, AgentInsert(k))
    ensures Kept(DoAgentInsert(s, k))
  {
    hide NodesOk, DownOk, WebOk, RoutesOk, TagsOk, HandlesOk, InsertedOk, AgentsOk, Emission, Intake;
    InsertHandle(s.agent, s.handles, s.owner, s.inserted, s.born, k);
  }

  lemma DeliverShape(s: State, k: nat)
    requires Shape(s) && Enabled(s, AgentDeliver(k))
    ensures Shape(DoAgentDeliver(s, k))
  {
    var Delivering(got, sid) := s.agent[k];
    var key := Key(s.owner[k], sid);
    SameKeys(s.inbound, key, s.inbound[key].(stdin := s.inbound[key].stdin + [got]));
    assert DoAgentDeliver(s, k).inbound.Keys == s.inbound.Keys;
  }

  lemma SameKeys(inbound: map<Key, Inbound>, key: Key, ib: Inbound)
    requires key in inbound
    ensures inbound[key := ib].Keys == inbound.Keys
  {
  }

  lemma DeliverTags(inbound: map<Key, Inbound>, born: map<Key, Birth>, key: Key, got: Got)
    requires TagsOk(inbound, born) && key in inbound && key in born && got.from == born[key].creator
    ensures TagsOk(inbound[key := inbound[key].(stdin := inbound[key].stdin + [got])], born)
  {
  }

  lemma CreatorOf(s: State, key: Key)
    requires Shape(s) && Addressing(s) && key in s.born
    ensures s.born[key].creator == s.born[key].cid
  {
    hide NodesOk, DownOk, WebOk, TagsOk, HandlesOk, InsertedOk, AgentsOk, RoutesOk;
  }

  lemma AgentAt(s: State, k: nat)
    requires Shape(s) && Addressing(s) && k < |s.owner|
    ensures AgentPcOk(k, s.agent[k], s.owner[k], s.born, s.inserted)
  {
    hide NodesOk, DownOk, WebOk, BornOk, TagsOk, HandlesOk, InsertedOk, RoutesOk;
  }

  lemma KeepDeliver(s: State, k: nat)
    requires Inv(s) && Enabled(s, AgentDeliver(k))
    ensures Kept(DoAgentDeliver(s, k))
  {
    hide Emission, Intake, NodesOk, DownOk, WebOk, BornOk, TagsOk, HandlesOk, InsertedOk, AgentsOk, RoutesOk;
    DeliverShape(s, k);
    AgentAt(s, k);
    SetAgent(s.agent, s.owner, s.born, s.inserted, k, AgentIdle);
    var key := Key(s.owner[k], s.agent[k].sid);
    CreatorOf(s, key);
    DeliverTags(s.inbound, s.born, key, s.agent[k].got);
  }

  lemma KeepUnhandle(s: State, k: nat, h: (Uuid, nat))
    requires Shape(s) && Addressing(s) && k < |s.owner|
    ensures var t := Unhandle(s, k, h); Shape(t) && Addressing(t)
  {
    hide NodesOk, DownOk, WebOk, BornOk, RoutesOk, TagsOk, HandlesOk, InsertedOk, AgentsOk;
    RemoveHandle(s.handles, s.owner, s.born, s.inserted, k, h);
  }

  lemma KeepCloseEnd(s: State, k: nat)
    requires Inv(s) && Enabled(s, AgentCloseEnd(k))
    ensures Kept(DoAgentCloseEnd(s, k))
  {
    hide Emission, Intake;
    hide NodesOk, DownOk, WebOk, BornOk, RoutesOk, TagsOk, HandlesOk, InsertedOk, AgentsOk;
    SetAgent(s.agent, s.owner, s.born, s.inserted, k, AgentIdle);
  }

  lemma EmitRetires(b: Birth, sid: nat, phase: Phase, ob: Outbound, frame: UpFrame, next: Phase, dropped: set<nat>)
    requires ProducedOk(b, sid, phase, ob) && MayEmit(b, sid, phase, frame, next)
    ensures Retired(ob.(produced := ob.produced + [frame], dropped := dropped)) ==> Retired(ob)
    ensures WasOpened(ob) ==> WasOpened(ob.(produced := ob.produced + [frame], dropped := dropped))
  {
  }

  lemma ProducedAt(s: State, key: Key)
    requires Shape(s) && Emission(s) && key in s.born
    ensures ProducedOk(s.born[key], key.sid, s.phase[key], s.outbound[key])
  {
    hide UpOk, ReadersOk, InboxesOk, FreshOk, Conserved, ProducedOk;
  }

  lemma EmitShape(s: State, key: Key, frame: UpFrame, next: Phase, lost: bool)
    requires Shape(s) && Enabled(s, Emit(key, frame, next, lost))
    ensures Shape(DoEmit(s, key, frame, next, lost))
  {
  }

  lemma KeepEmit(s: State, key: Key, frame: UpFrame, next: Phase, lost: bool)
    requires Inv(s) && Enabled(s, Emit(key, frame, next, lost))
    ensures Kept(DoEmit(s, key, frame, next, lost))
  {
    hide NodesOk, DownOk, WebOk, BornOk, TagsOk, HandlesOk, InsertedOk, AgentsOk, RoutesOk;
    hide Emission, Intake, ProducedOk, MayEmit, Retired, WasOpened;
    EmitShape(s, key, frame, next, lost);
    ProducedAt(s, key);
    var t := DoEmit(s, key, frame, next, lost);
    StillRouted(s, key);
    EmitRetires(s.born[key], key.sid, s.phase[key], s.outbound[key], frame, next, t.outbound[key].dropped);
    SetOutbound(s.routes, s.born, s.outbound, key, t.outbound[key]);
  }

  lemma StillRouted(s: State, key: Key)
    requires RoutesOk(s.routes, s.born, s.outbound)
    ensures key in s.routes ==> key in s.outbound && WasOpened(s.outbound[key]) && !Retired(s.outbound[key])
  {
  }

  /** Marking frames as dropped does not touch the routes. */
  lemma KeepDropped(s: State, outbound: map<Key, Outbound>, key: Key, dropped: set<nat>)
    requires Shape(s) && Addressing(s) && key in s.outbound
    requires outbound == s.outbound[key := s.outbound[key].(dropped := dropped)]
    ensures outbound.Keys == s.born.Keys && RoutesOk(s.routes, s.born, outbound)
  {
    hide NodesOk, DownOk, WebOk, BornOk, TagsOk, HandlesOk, InsertedOk, AgentsOk, RoutesOk;
    StillRouted(s, key);
    SetOutbound(s.routes, s.born, s.outbound, key, outbound[key]);
  }

  lemma KeepNotify(s: State, k: nat, ok: bool)
    requires Inv(s) && Enabled(s, ServeNotify(k, ok))
    ensures Kept(DoServeNotify(s, k, ok))
  {
    hide Emission, Intake;
    hide NodesOk, DownOk, WebOk, BornOk, TagsOk, HandlesOk, InsertedOk, AgentsOk, RoutesOk;
    var t := DoServeNotify(s, k, ok);
    var d := s.reader[k].what;
    if t.outbound != s.outbound {
      var key := Key(d.node, d.sid);
      KeepDropped(s, t.outbound, key, t.outbound[key].dropped);
    }
  }

  lemma KeepLose(s: State, k: nat)
    requires Inv(s) && Enabled(s, LoseUp(k))
    ensures Kept(DoLoseUp(s, k))
  {
    hide Emission, Intake;
    hide NodesOk, DownOk, WebOk, BornOk, TagsOk, HandlesOk, InsertedOk, AgentsOk, RoutesOk;
    var t := DoLoseUp(s, k);
    if t.outbound != s.outbound {
      var key := Key(s.owner[k], s.up[k].queue[0].source.sid);
      KeepDropped(s, t.outbound, key, t.outbound[key].dropped);
    }
  }

  lemma KeepConsume(s: State, key: Key)
    requires Inv(s) && Enabled(s, Consume(key))
    ensures Kept(DoConsume(s, key))
  {
    hide Emission, Intake;
    hide NodesOk, DownOk, WebOk, BornOk, HandlesOk, InsertedOk, AgentsOk, RoutesOk;
    var t := DoConsume(s, key);
    SetInbound(s.inbound, s.born, key, t.inbound[key]);
  }

  lemma DropRoutes(routes: map<Key, (Uuid, Uuid)>, born: map<Key, Birth>, outbound: map<Key, Outbound>, keys: set<Key>)
    requires RoutesOk(routes, born, outbound)
    ensures RoutesOk(routes - keys, born, outbound)
  {
  }

  lemma DropNodes(nodes: map<Uuid, nat>, owner: seq<Uuid>, gone: set<Uuid>)
    requires NodesOk(nodes, owner)
    ensures NodesOk(nodes - gone, owner)
  {
  }

  lemma KeepLeave(s: State, c: Uuid)
    requires Inv(s) && Enabled(s, WebLeave(c))
    ensures Kept(DoWebLeave(s, c))
  {
    hide NodesOk, DownOk, WebOk, BornOk, TagsOk, HandlesOk, InsertedOk, AgentsOk, RoutesOk, Emission, Intake;
    KeepWebPc(s, c, Leaving({}));
  }

  lemma KeepGone(s: State, c: Uuid)
    requires Inv(s) && Enabled(s, WebGone(c))
    ensures Kept(DoWebGone(s, c))
  {
    hide NodesOk, DownOk, WebOk, BornOk, TagsOk, HandlesOk, InsertedOk, AgentsOk, RoutesOk, Emission, Intake;
    KeepWebPc(s, c, Gone);
  }

  lemma KeepEnd(s: State, k: nat)
    requires Inv(s) && Enabled(s, ServeEnd(k))
    ensures Kept(DoServeEnd(s, k))
  {
    hide NodesOk, DownOk, WebOk, BornOk, TagsOk, HandlesOk, InsertedOk, AgentsOk, RoutesOk, Emission, Intake;
    DropNodes(s.nodes, s.owner, {s.owner[k]});
  }

  lemma KeepSweep(s: State, k: nat)
    requires Inv(s) && Enabled(s, SweepOne(k))
    ensures Kept(DoSweepOne(s, k))
  {
    hide NodesOk, DownOk, WebOk, BornOk, TagsOk, HandlesOk, InsertedOk, AgentsOk, RoutesOk, Emission, Intake;
    DropRoutes(s.routes, s.born, s.outbound, {s.reader[k].pending[0].0});
  }

  lemma KeepStale(s: State, n: Uuid)
    requires Inv(s) && Enabled(s, StaleNode(n))
    ensures Kept(DoStaleNode(s, n))
  {
    hide NodesOk, DownOk, WebOk, BornOk, TagsOk, HandlesOk, InsertedOk, AgentsOk, RoutesOk, Emission, Intake;
    DropNodes(s.nodes, s.owner, {n});
  }

  lemma KeepMoveDown(s: State, k: nat)
    requires Inv(s) && Enabled(s, MoveDown(k))
    ensures Kept(DoMoveDown(s, k))
  {
    hide NodesOk, DownOk, WebOk, BornOk, TagsOk, HandlesOk, InsertedOk, AgentsOk, RoutesOk, Emission, Intake;
    MoveFlows(s.down, k);
  }

  /** Steps that only move a server reader, fill an inbox or drop a connection. */
  lemma KeepElsewhere(s: State, reader: seq<NodePc>, inbox: map<Uuid, seq<Delivery>>, connections: set<Uuid>)
    requires Inv(s) && |reader| == |s.reader| && inbox.Keys == s.inbox.Keys && connections <= s.connections
    ensures Kept(s.(reader := reader, inbox := inbox, connections := connections))
  {
    hide NodesOk, DownOk, WebOk, BornOk, TagsOk, HandlesOk, InsertedOk, AgentsOk, RoutesOk, Emission, Intake;
  }

  lemma KeepCollect(s: State, k: nat, key: Key)
    requires Inv(s) && Enabled(s, Collect(k, key))
    ensures Kept(DoCollect(s, k, key))
  {
    hide NodesOk, DownOk, WebOk, BornOk, TagsOk, HandlesOk, InsertedOk, AgentsOk, RoutesOk, Emission, Intake;
    var t := DoCollect(s, k, key);
    KeepElsewhere(s, t.reader, t.inbox, t.connections);
  }

  lemma KeepCollectEnd(s: State, k: nat)
    requires Inv(s) && Enabled(s, CollectEnd(k))
    ensures Kept(DoCollectEnd(s, k))
  {
    hide NodesOk, DownOk, WebOk, BornOk, TagsOk, HandlesOk, InsertedOk, AgentsOk, RoutesOk, Emission, Intake;
    var t := DoCollectEnd(s, k);
    KeepElsewhere(s, t.reader, t.inbox, t.connections);
  }

  lemma KeepInform(s: State, k: nat, ok: bool)
    requires Inv(s) && Enabled(s, Inform(k, ok))
    ensures Kept(DoInform(s, k, ok))
  {
    hide NodesOk, DownOk, WebOk, BornOk, TagsOk, HandlesOk, InsertedOk, AgentsOk, RoutesOk, Emission, Intake;
    var t := DoInform(s, k, ok);
    KeepElsewhere(s, t.reader, t.inbox, t.connections);
  }

  lemma KeepSweepEnd(s: State, k: nat)
    requires Inv(s) && Enabled(s, SweepEnd(k))
    ensures Kept(DoSweepEnd(s, k))
  {
    hide NodesOk, DownOk, WebOk, BornOk, TagsOk, HandlesOk, InsertedOk, AgentsOk, RoutesOk, Emission, Intake;
    var t := DoSweepEnd(s, k);
    KeepElsewhere(s, t.reader, t.inbox, t.connections);
  }

  lemma KeepStaleConnection(s: State, c: Uuid)
    requires Inv(s) && Enabled(s, StaleConnection(c))
    ensures Kept(DoStaleConnection(s, c))
  {
    hide NodesOk, DownOk, WebOk, BornOk, TagsOk, HandlesOk, InsertedOk, AgentsOk, RoutesOk, Emission, Intake;
    var t := DoStaleConnection(s, c);
    KeepElsewhere(s, t.reader, t.inbox, t.connections);
  }

  lemma KeepMoveUp(s: State, k: nat)
    requires Inv(s) && Enabled(s, MoveUp(k))
    ensures Kept(DoMoveUp(s, k))
  {
    hide NodesOk, DownOk, WebOk, BornOk, TagsOk, HandlesOk, InsertedOk, AgentsOk, RoutesOk, Emission, Intake;
  }

  lemma KeepClose(s: State, k: nat, h: (Uuid, nat))
    requires Inv(s) && Enabled(s, AgentClose(k, h))
    ensures Kept(DoAgentClose(s, k, h))
  {
    hide NodesOk, DownOk, WebOk, BornOk, TagsOk, HandlesOk, InsertedOk, AgentsOk, RoutesOk, Emission, Intake;
    KeepUnhandle(s, k, h);
  }

  lemma KeepDrop(s: State, k: nat, h: (Uuid, nat))
    requires Inv(s) && Enabled(s, AgentDrop(k, h))
    ensures Kept(DoAgentDrop(s, k, h))
  {
    hide NodesOk, DownOk, WebOk, BornOk, TagsOk, HandlesOk, InsertedOk, AgentsOk, RoutesOk, Emission, Intake;
    KeepUnhandle(s, k, h);
  }

  lemma KeepAddressingWeb(s: State, e: Event)
    requires Inv(s) && Enabled(s, e) && WebStep(e)
    ensures Kept(Apply(s, e))
  {
    hide Inv, Shape, Enabled, Kept, Frame, SocketFrame, OnlyReader, SameTables, Route;
    hide DoAccept, DoWebOpen, DoWebRoute, DoWebResolve, DoWebPush, DoWebLeave, DoWebTell, DoWebGone,
         DoRegister, DoServeFrame, DoServeNotify, DoServeEnd, DoCollect, DoCollectEnd, DoSweepOne, DoInform,
         DoSweepEnd, DoStaleNode, DoStaleConnection, DoMoveDown, DoMoveUp, DoLoseUp, DoAgentRead, DoAgentInsert,
         DoAgentDeliver, DoAgentClose, DoAgentCloseEnd, DoAgentDrop, DoEmit, DoConsume;
    match e
    case Accept(c) => KeepAccept(s, c);
    case WebOpen(c, n, kind, complete) => KeepOpen(s, c, n, kind, complete);
    case WebRoute(c, n, sid, cmd) => KeepRoute(s, c, n, sid, cmd);
    case WebResolve(c) => KeepResolve(s, c);
    case WebPush(c, ok) => KeepPush(s, c, ok);
    case WebLeave(c) => KeepLeave(s, c);
    case WebTell(c, n, ok) => KeepTell(s, c, n, ok);
    case WebGone(c) => KeepGone(s, c);
  }

  lemma KeepAddressingServer(s: State, e: Event)
    requires Inv(s) && Enabled(s, e) && ServerStep(e)
    ensures Kept(Apply(s, e))
  {
    hide Inv, Shape, Enabled, Kept, Frame, SocketFrame, OnlyReader, SameTables, Route;
    hide DoRegister, DoServeFrame, DoServeNotify, DoServeEnd, DoCollect, DoCollectEnd, DoSweepOne, DoInform,
         DoSweepEnd, DoStaleNode, DoStaleConnection, DoAccept, DoWebOpen, DoWebRoute, DoWebResolve, DoWebPush,
         DoWebLeave, DoWebTell, DoWebGone, DoMoveDown, DoMoveUp, DoLoseUp, DoAgentRead, DoAgentInsert,
         DoAgentDeliver, DoAgentClose, DoAgentCloseEnd, DoAgentDrop, DoEmit, DoConsume;
    match e
    case Register(n) => KeepRegister(s, n);
    case ServeFrame(k) => KeepServe(s, k);
    case ServeNotify(k, ok) => KeepNotify(s, k, ok);
    case ServeEnd(k) => KeepEnd(s, k);
    case Collect(k, key) => KeepCollect(s, k, key);
    case CollectEnd(k) => KeepCollectEnd(s, k);
    case SweepOne(k) => KeepSweep(s, k);
    case Inform(k, ok) => KeepInform(s, k, ok);
    case SweepEnd(k) => KeepSweepEnd(s, k);
    case StaleNode(n) => KeepStale(s, n);
    case StaleConnection(c) => KeepStaleConnection(s, c);
  }

  lemma KeepAddressingAgent(s: State, e: Event)
    requires Inv(s) && Enabled(s, e) && !WebStep(e) && !ServerStep(e)
    ensures Kept(Apply(s, e))
  {
    hide Inv, Shape, Enabled, Kept, Frame, SocketFrame, OnlyReader, SameTables, Route;
    hide DoMoveDown, DoMoveUp, DoLoseUp, DoAgentRead, DoAgentInsert, DoAgentDeliver, DoAgentClose, DoAgentCloseEnd,
         DoAgentDrop, DoEmit, DoConsume, DoAccept, DoWebOpen, DoWebRoute, DoWebResolve, DoWebPush,
         DoWebLeave, DoWebTell, DoWebGone, DoRegister, DoServeFrame, DoServeNotify, DoServeEnd, DoCollect,
         DoCollectEnd, DoSweepOne, DoInform, DoSweepEnd, DoStaleNode, DoStaleConnection;
    match e
    case MoveDown(k) => KeepMoveDown(s, k);
    case MoveUp(k) => KeepMoveUp(s, k);
    case LoseUp(k) => KeepLose(s, k);
    case AgentRead(k, body, lost) => KeepRead(s, k, body, lost);
    case AgentInsert(k) => KeepInsert(s, k);
    case AgentDeliver(k) => KeepDeliver(s, k);
    case AgentClose(k, h) => KeepClose(s, k, h);
    case AgentCloseEnd(k) => KeepCloseEnd(s, k);
    case AgentDrop(k, h) => KeepDrop(s, k, h);
    case Emit(key, frame, next, lost) => KeepEmit(s, key, frame, next, lost);
    case Consume(key) => KeepConsume(s, key);
  }

  lemma KeepAddressing(s: State, e: Event)
    requires Inv(s) && Enabled(s, e)
    ensures Kept(Apply(s, e))
  {
    hide Inv, Shape, Enabled, Apply, Kept;
    if WebStep(e) {
      KeepAddressingWeb(s, e);
    } else if ServerStep(e) {
      KeepAddressingServer(s, e);
    } else {
      KeepAddressingAgent(s, e);
    }
  }
}
