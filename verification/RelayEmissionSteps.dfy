/** The steps of the relay, one by one, against the emission invariants. */
module RelayEmissionSteps {
  import opened Protocol
  import opened Pipes
  import opened RelayModel
  import opened RelayInvariants
  import opened RelayEmission

  /** The two states agree on every column `Emission` speaks about. */
  predicate SameOut(s: State, t: State) {
    && t.outbound == s.outbound && t.born == s.born && t.phase == s.phase && t.up == s.up
    && t.owner == s.owner && t.reader == s.reader && t.inbox == s.inbox
  }

  lemma SameOutKeeps(s: State, t: State)
    requires Emission(s) && SameOut(s, t)
    ensures Emission(t)
  {
    hide OutboundOk, UpOk, ReadersOk, InboxesOk, FreshOk, Conserved;
  }

  // Steps that leave all those columns alone.

  lemma KeepOpen(s: State, c: Uuid, n: Uuid, kind: Kind, complete: bool)
    requires Inv(s) && Enabled(s, WebOpen(c, n, kind, complete))
    ensures Emission(DoWebOpen(s, c, n, kind, complete))
  {
    hide Addressing, Emission, Intake;
    SameOutKeeps(s, DoWebOpen(s, c, n, kind, complete));
  }

  lemma KeepRoute(s: State, c: Uuid, n: Uuid, sid: nat, cmd: Command)
    requires Inv(s) && Enabled(s, WebRoute(c, n, sid, cmd))
    ensures Emission(DoWebRoute(s, c, n, sid, cmd))
  {
    hide Addressing, Emission, Intake;
    SameOutKeeps(s, DoWebRoute(s, c, n, sid, cmd));
  }

  lemma KeepResolve(s: State, c: Uuid)
    requires Inv(s) && Enabled(s, WebResolve(c))
    ensures Emission(DoWebResolve(s, c))
  {
    hide Addressing, Emission, Intake;
    SameOutKeeps(s, DoWebResolve(s, c));
  }

  lemma KeepPush(s: State, c: Uuid, ok: bool)
    requires Inv(s) && Enabled(s, WebPush(c, ok))
    ensures Emission(DoWebPush(s, c, ok))
  {
    hide Addressing, Emission, Intake;
    SameOutKeeps(s, DoWebPush(s, c, ok));
  }

  lemma KeepLeave(s: State, c: Uuid)
    requires Inv(s) && Enabled(s, WebLeave(c))
    ensures Emission(DoWebLeave(s, c))
  {
    hide Addressing, Emission, Intake;
    SameOutKeeps(s, DoWebLeave(s, c));
  }

  lemma KeepTell(s: State, c: Uuid, n: Uuid, ok: bool)
    requires Inv(s) && Enabled(s, WebTell(c, n, ok))
    ensures Emission(DoWebTell(s, c, n, ok))
  {
    hide Addressing, Emission, Intake;
    SameOutKeeps(s, DoWebTell(s, c, n, ok));
  }

  lemma KeepGone(s: State, c: Uuid)
    requires Inv(s) && Enabled(s, WebGone(c))
    ensures Emission(DoWebGone(s, c))
  {
    hide Addressing, Emission, Intake;
    SameOutKeeps(s, DoWebGone(s, c));
  }

  lemma KeepStaleNode(s: State, n: Uuid)
    requires Inv(s) && Enabled(s, StaleNode(n))
    ensures Emission(DoStaleNode(s, n))
  {
    hide Addressing, Emission, Intake;
    SameOutKeeps(s, DoStaleNode(s, n));
  }

  lemma KeepStaleConnection(s: State, c: Uuid)
    requires Inv(s) && Enabled(s, StaleConnection(c))
    ensures Emission(DoStaleConnection(s, c))
  {
    hide Addressing, Emission, Intake;
    SameOutKeeps(s, DoStaleConnection(s, c));
  }

  lemma KeepMoveDown(s: State, k: nat)
    requires Inv(s) && Enabled(s, MoveDown(k))
    ensures Emission(DoMoveDown(s, k))
  {
    hide Addressing, Emission, Intake;
    SameOutKeeps(s, DoMoveDown(s, k));
  }

  lemma KeepInsert(s: State, k: nat)
    requires Inv(s) && Enabled(s, AgentInsert(k))
    ensures Emission(DoAgentInsert(s, k))
  {
    hide Addressing, Emission, Intake;
    SameOutKeeps(s, DoAgentInsert(s, k));
  }

  lemma KeepDeliver(s: State, k: nat)
    requires Inv(s) && Enabled(s, AgentDeliver(k))
    ensures Emission(DoAgentDeliver(s, k))
  {
    hide Addressing, Emission, Intake;
    SameOutKeeps(s, DoAgentDeliver(s, k));
  }

  lemma KeepClose(s: State, k: nat, h: (Uuid, nat))
    requires Inv(s) && Enabled(s, AgentClose(k, h))
    ensures Emission(DoAgentClose(s, k, h))
  {
    hide Addressing, Emission, Intake;
    SameOutKeeps(s, DoAgentClose(s, k, h));
  }

  lemma KeepCloseEnd(s: State, k: nat)
    requires Inv(s) && Enabled(s, AgentCloseEnd(k))
    ensures Emission(DoAgentCloseEnd(s, k))
  {
    hide Addressing, Emission, Intake;
    SameOutKeeps(s, DoAgentCloseEnd(s, k));
  }

  lemma KeepDrop(s: State, k: nat, h: (Uuid, nat))
    requires Inv(s) && Enabled(s, AgentDrop(k, h))
    ensures Emission(DoAgentDrop(s, k, h))
  {
    hide Addressing, Emission, Intake;
    SameOutKeeps(s, DoAgentDrop(s, k, h));
  }

  lemma KeepConsume(s: State, key: Key)
    requires Inv(s) && Enabled(s, Consume(key))
    ensures Emission(DoConsume(s, key))
  {
    hide Addressing, Emission, Intake;
    SameOutKeeps(s, DoConsume(s, key));
  }

  lemma KeepAccept(s: State, c: Uuid)
    requires Inv(s) && Enabled(s, Accept(c))
    ensures Emission(DoAccept(s, c))
  {
    hide OutboundOk, UpOk, ReadersOk, InboxesOk, FreshOk, Conserved, Addressing, Intake;
    GrowInboxes(s.inbox, s.born, s.outbound, Flows(s.up), s.reader, c);
  }

  lemma KeepRegister(s: State, n: Uuid)
    requires Inv(s) && Enabled(s, Register(n))
    ensures Emission(DoRegister(s, n))
  {
    hide OutboundOk, UpOk, ReadersOk, InboxesOk, FreshOk, Conserved, Addressing, Intake;
    GrowFlows(s.up);
    GrowSockets(Flows(s.up), s.owner, s.born, s.outbound, s.reader, s.inbox, n);
  }

  /** A server reader that holds no frame moves to another place where it holds none. */
  lemma KeepReaderPc(s: State, k: nat, pc: NodePc)
    requires Shape(s) && Emission(s) && k < |s.owner| && !s.reader[k].Notifying? && !pc.Notifying?
    requires NodePcOk(pc, k, s.owner[k], s.born, s.outbound)
    ensures var reader' := s.reader[k := pc];
            && ReadersOk(reader', s.owner, s.born, s.outbound) && FreshOk(reader', s.inbox)
            && Conserved(s.outbound, s.born, Flows(s.up), reader', s.inbox)
  {
    hide OutboundOk, UpOk, ReadersOk, InboxesOk, Conserved;
    SetReader(s.reader, s.owner, s.born, s.outbound, k, pc);
    SameDropped(s.outbound);
    DropConserved(s.outbound, s.outbound, s.born, Flows(s.up), s.reader, s.inbox, k, pc);
  }

  lemma SameDropped(outbound: map<Key, Outbound>)
    ensures MoreDropped(outbound, outbound)
  {
  }

  lemma ReaderAt(s: State, k: nat)
    requires Shape(s) && Emission(s) && k < |s.owner|
    ensures NodePcOk(s.reader[k], k, s.owner[k], s.born, s.outbound)
  {
  }

  lemma KeepEnd(s: State, k: nat)
    requires Inv(s) && Enabled(s, ServeEnd(k))
    ensures Emission(DoServeEnd(s, k))
  {
    hide OutboundOk, UpOk, ReadersOk, InboxesOk, FreshOk, Conserved, Addressing, Intake;
    KeepReaderPc(s, k, DoServeEnd(s, k).reader[k]);
  }

  lemma KeepCollect(s: State, k: nat, key: Key)
    requires Inv(s) && Enabled(s, Collect(k, key))
    ensures Emission(DoCollect(s, k, key))
  {
    hide OutboundOk, UpOk, ReadersOk, InboxesOk, FreshOk, Conserved, Intake;
    hide NodesOk, BornOk, WebOk, DownOk, AgentsOk, HandlesOk, InsertedOk, TagsOk;
    ReaderAt(s, k);
    KeepReaderPc(s, k, DoCollect(s, k, key).reader[k]);
  }

  lemma KeepCollectEnd(s: State, k: nat)
    requires Inv(s) && Enabled(s, CollectEnd(k))
    ensures Emission(DoCollectEnd(s, k))
  {
    hide OutboundOk, UpOk, ReadersOk, InboxesOk, FreshOk, Conserved, Addressing, Intake;
    ReaderAt(s, k);
    KeepReaderPc(s, k, Sweeping(s.reader[k].picked));
  }

  lemma KeepSweepOne(s: State, k: nat)
    requires Inv(s) && Enabled(s, SweepOne(k))
    ensures Emission(DoSweepOne(s, k))
  {
    hide OutboundOk, UpOk, ReadersOk, InboxesOk, FreshOk, Conserved, Addressing, Intake;
    ReaderAt(s, k);
    var p := s.reader[k].pending;
    KeepReaderPc(s, k, Informing(p[0].0, p[0].1, p[1..]));
  }

  lemma KeepSweepEnd(s: State, k: nat)
    requires Inv(s) && Enabled(s, SweepEnd(k))
    ensures Emission(DoSweepEnd(s, k))
  {
    hide OutboundOk, UpOk, ReadersOk, InboxesOk, FreshOk, Conserved, Addressing, Intake;
    KeepReaderPc(s, k, Closed);
  }

  /** A good delivery for `to` lands in its queue while reader `k` moves on to `pc`. */
  lemma KeepDelivery(s: State, k: nat, pc: NodePc, to: Uuid, d: Delivery)
    requires Shape(s) && Emission(s) && k < |s.owner| && to in s.inbox && !pc.Notifying?
    requires NodePcOk(pc, k, s.owner[k], s.born, s.outbound) && DeliveryOk(d, to, s.born, s.outbound)
    requires s.reader[k].Notifying? ==> s.reader[k].what == d
    requires forall i :: 0 <= i < |s.inbox[to]| ==> Before(s.inbox[to][i], d)
    requires forall j :: 0 <= j < |s.reader| && j != k && s.reader[j].Notifying? ==> Before(d, s.reader[j].what)
    ensures Emission(s.(reader := s.reader[k := pc], inbox := s.inbox[to := s.inbox[to] + [d]]))
  {
    hide OutboundOk, UpOk, ReadersOk, InboxesOk, FreshOk, Conserved;
    SetReader(s.reader, s.owner, s.born, s.outbound, k, pc);
    NotifyInboxes(s.inbox, s.born, s.outbound, to, d);
    NotifyFresh(s.reader, s.inbox, k, pc, to, d);
    NotifyConserved(s.outbound, s.born, Flows(s.up), s.reader, s.inbox, k, pc, to, d);
  }

  lemma KeepInform(s: State, k: nat, ok: bool)
    requires Inv(s) && Enabled(s, Inform(k, ok))
    ensures Emission(DoInform(s, k, ok))
  {
    hide OutboundOk, UpOk, ReadersOk, InboxesOk, FreshOk, Conserved, Addressing, Intake;
    ReaderAt(s, k);
    var Informing(key, to, rest) := s.reader[k];
    if ok && to in s.connections {
      KeepDelivery(s, k, Sweeping(rest), to, NodeGone(key.node, key.sid));
    } else {
      KeepReaderPc(s, k, Sweeping(rest));
    }
  }

  /** What two server readers hold comes from different sessions. */
  lemma HeldApart(s: State, k: nat, j: nat)
    requires Shape(s) && Emission(s) && k < |s.reader| && j < |s.reader| && j != k
    requires s.reader[k].Notifying? && s.reader[j].Notifying?
    ensures Before(s.reader[k].what, s.reader[j].what)
  {
    hide OutboundOk, UpOk, InboxesOk, FreshOk, Conserved;
    assert NodePcOk(s.reader[k], k, s.owner[k], s.born, s.outbound);
    assert NodePcOk(s.reader[j], j, s.owner[j], s.born, s.outbound);
  }

  lemma NotYetIn(reader: seq<NodePc>, inbox: map<Uuid, seq<Delivery>>, k: nat, to: Uuid)
    requires FreshOk(reader, inbox) && k < |reader| && reader[k].Notifying? && to in inbox
    ensures forall i :: 0 <= i < |inbox[to]| ==> Before(inbox[to][i], reader[k].what)
  {
  }

  lemma KeepNotify(s: State, k: nat, ok: bool)
    requires Inv(s) && Enabled(s, ServeNotify(k, ok))
    ensures Emission(DoServeNotify(s, k, ok))
  {
    hide OutboundOk, UpOk, ReadersOk, InboxesOk, FreshOk, Conserved, Addressing, Intake;
    ReaderAt(s, k);
    var Notifying(to, d) := s.reader[k];
    if ok && to in s.connections {
      forall j | 0 <= j < |s.reader| && j != k && s.reader[j].Notifying? ensures Before(d, s.reader[j].what) {
        HeldApart(s, k, j);
      }
      NotYetIn(s.reader, s.inbox, k, to);
      KeepDelivery(s, k, Serving, to, d);
    } else {
      KeepHeldDrop(s, k);
    }
  }

  lemma KeepHeldDrop(s: State, k: nat)
    requires Shape(s) && Emission(s) && k < |s.owner| && s.reader[k].Notifying?
    ensures Emission(s.(reader := s.reader[k := Serving], outbound := DropFrom(s.outbound, s.reader[k].what)))
  {
    hide OutboundOk, UpOk, ReadersOk, InboxesOk, Conserved;
    var outbound' := DropFrom(s.outbound, s.reader[k].what);
    DropKeeps(s.outbound, outbound', s.born, s.phase, Flows(s.up), s.owner, s.reader, s.inbox);
    DropReaders(s.outbound, outbound', s.born, s.owner, s.reader);
    SetReader(s.reader, s.owner, s.born, outbound', k, Serving);
    DropConserved(s.outbound, outbound', s.born, Flows(s.up), s.reader, s.inbox, k, Serving);
  }

  /** The server addresses a session's frame to the connection that owns the session. */
  lemma TargetOwns(routes: map<Key, (Uuid, Uuid)>, born: map<Key, Birth>, outbound: map<Key, Outbound>,
                   phase: map<Key, Phase>, k: nat, node: Uuid, x: Emitted)
    requires RoutesOk(routes, born, outbound) && OutboundOk(outbound, born, phase)
      && EmittedOk(x, k, node, born, outbound)
    ensures var target := Route(routes, node, x.frame).1;
            && (target.Some? && x.source.Session? ==>
                  var key := Key(node, x.source.sid);
                  && Owns(target.value, key, born)
                  && key in outbound && outbound[key].produced != [] && outbound[key].produced[0].TunnelOpened?)
            && (target.Some? && x.source.Reader? ==> x.frame.cid == target.value)
  {
    if x.source.Session? {
      var key := Key(node, x.source.sid);
      assert ProducedOk(born[key], key.sid, phase[key], outbound[key]);
      assert Addressed(born[key], key.sid, x.frame);
    }
  }

  lemma SocketNode(born: map<Key, Birth>, owner: seq<Uuid>, counter: map<Uuid, nat>, cids: set<Uuid>, k: nat)
    requires BornOk(born, owner, counter, cids) && k < |owner|
    ensures forall key :: key in born && born[key].socket == k ==> key.node == owner[k]
  {
  }

  lemma KeepServe(s: State, k: nat)
    requires Inv(s) && Enabled(s, ServeFrame(k))
    ensures Emission(DoServeFrame(s, k))
  {
    hide OutboundOk, UpOk, ReadersOk, InboxesOk, FreshOk, Conserved, Intake, Route, HearIn, Describe, EmittedOk;
    hide NodesOk, BornOk, RoutesOk, WebOk, DownOk, AgentsOk, HandlesOk, InsertedOk, TagsOk;
    var x, n := s.up[k].wire[0], s.owner[k];
    var target := Route(s.routes, n, x.frame).1;
    PopFlows(s.up, k);
    ServeUp(Flows(s.up), s.owner, s.born, s.outbound, k, target.None?);
    HearOutbound(s.outbound, s.born, s.phase, k, n, x, target.None?);
    TargetOwns(s.routes, s.born, s.outbound, s.phase, k, n, x);
    ServeReader(s.reader, s.owner, s.born, s.outbound, k, x, target);
    HearInboxes(s.inbox, s.born, s.outbound, k, n, x, target.None?);
    ServeFresh(s.reader, s.inbox, s.born, s.outbound, k, n, x, target);
    SocketNode(s.born, s.owner, s.counter, s.web.Keys, k);
    ServeConserved(s.outbound, s.born, Flows(s.up), s.reader, s.inbox, k, n, target);
  }

  lemma KeepMoveUp(s: State, k: nat)
    requires Inv(s) && Enabled(s, MoveUp(k))
    ensures Emission(DoMoveUp(s, k))
  {
    hide OutboundOk, UpOk, ReadersOk, InboxesOk, FreshOk, Conserved, Addressing, Intake;
    MoveFlows(s.up, k);
  }

  lemma FlowAt(flows: seq<seq<Emitted>>, owner: seq<Uuid>, born: map<Key, Birth>, outbound: map<Key, Outbound>,
               k: nat, m: nat)
    requires UpOk(flows, owner, born, outbound) && k < |flows| && m < |flows[k]|
    ensures EmittedOk(flows[k][m], k, owner[k], born, outbound)
  {
    assert FlowOk(flows[k], k, owner[k], born, outbound);
  }

  lemma KeepLose(s: State, k: nat)
    requires Inv(s) && Enabled(s, LoseUp(k))
    ensures Emission(DoLoseUp(s, k))
  {
    hide OutboundOk, UpOk, ReadersOk, InboxesOk, FreshOk, Conserved, Intake, EmittedOk;
    hide NodesOk, BornOk, RoutesOk, WebOk, DownOk, AgentsOk, HandlesOk, InsertedOk, TagsOk;
    var m, n := |s.up[k].wire|, s.owner[k];
    LoseFlows(s.up, k);
    FlowAt(Flows(s.up), s.owner, s.born, s.outbound, k, m);
    var outbound' := LoseFrom(s.outbound, n, s.up[k].queue[0].source);
    assert MoreDropped(s.outbound, outbound');
    LoseUpOk(Flows(s.up), s.owner, s.born, s.outbound, k, m);
    var flows' := Flows(s.up[k := s.up[k].Lose()]);
    DropKeeps(s.outbound, outbound', s.born, s.phase, flows', s.owner, s.reader, s.inbox);
    DropReaders(s.outbound, outbound', s.born, s.owner, s.reader);
    SocketNode(s.born, s.owner, s.counter, s.web.Keys, k);
    LoseConserved(s.outbound, s.born, Flows(s.up), s.reader, s.inbox, k, m, n);
  }

  lemma EmitPlace(s: State, key: Key)
    requires Inv(s) && key in s.born
    ensures s.born[key].socket < |s.owner| && s.owner[s.born[key].socket] == key.node && s.born[key].cid in s.inbox
    ensures s.outbound[key].heard <= |s.outbound[key].produced|
  {
    hide UpOk, ReadersOk, InboxesOk, FreshOk, Conserved, Intake;
    hide NodesOk, RoutesOk, WebOk, DownOk, AgentsOk, HandlesOk, InsertedOk, TagsOk;
    assert ProducedOk(s.born[key], key.sid, s.phase[key], s.outbound[key]);
  }

  lemma KeepEmit(s: State, key: Key, frame: UpFrame, next: Phase, lost: bool)
    requires Inv(s) && Enabled(s, Emit(key, frame, next, lost))
    ensures Emission(DoEmit(s, key, frame, next, lost))
  {
    hide OutboundOk, UpOk, ReadersOk, InboxesOk, FreshOk, Conserved, Addressing, Intake, MayEmit;
    EmitPlace(s, key);
    var k, i := s.born[key].socket, |s.outbound[key].produced|;
    var x := Emitted(Session(key.sid, i), frame);
    var flows := Flows(s.up);
    EmitOutbound(s.outbound, s.born, s.phase, key, frame, next, lost);
    EmitUp(flows, s.owner, s.born, s.outbound, key, frame, lost);
    EmitReaders(s.reader, s.owner, s.born, s.outbound, key, frame, lost);
    EmitInboxes(s.inbox, s.born, s.outbound, key, frame, lost);
    if lost {
      EmitConserved(s.outbound, s.born, flows, s.reader, s.inbox, key, frame, lost);
    } else {
      PushFlows(s.up, k, x);
      PushConserved(s.outbound, s.born, flows, s.reader, s.inbox, k, x);
      GrowFlow(flows[k], x, key.sid, i);
      EmitConserved(s.outbound, s.born, flows[k := flows[k] + [x]], s.reader, s.inbox, key, frame, lost);
    }
  }

  lemma KeepSpawn(s: State, k: nat, from: Uuid, cid: Uuid, kind: Kind)
    requires Shape(s) && Emission(s) && k < |s.owner| && cid in s.inbox
    requires Key(s.owner[k], Counter(s.counter, s.owner[k])) !in s.born
    ensures Emission(Spawn(s, k, from, cid, kind))
  {
    hide OutboundOk, UpOk, ReadersOk, InboxesOk, FreshOk, Conserved;
    var key := Key(s.owner[k], Counter(s.counter, s.owner[k]));
    var b := Birth(kind, from, cid, k);
    var born' := s.born[key := b];
    SpawnKeeps(s.born, born', s.outbound, s.phase, Flows(s.up), s.owner, key, b);
    SpawnReaders(s.born, born', s.outbound, s.reader, s.owner, key, b);
    SpawnInboxes(s.born, born', s.outbound, s.inbox, key, b);
    SpawnConserved(s.born, born', s.outbound, Flows(s.up), s.reader, s.inbox, key, b);
  }

  lemma HeadSent(s: State, k: nat)
    requires Inv(s) && k < |s.owner| && s.down[k].wire != []
    ensures SentOk(s.down[k].wire[0], s.owner[k], s.born, s.web.Keys)
    ensures Key(s.owner[k], Counter(s.counter, s.owner[k])) !in s.born
  {
    hide Emission, Intake, NodesOk, RoutesOk, WebOk, AgentsOk, HandlesOk, InsertedOk, TagsOk;
    PopFlows(s.down, k);
    assert SentOk(Flows(s.down)[k][0], s.owner[k], s.born, s.web.Keys);
  }

  lemma KeepRead(s: State, k: nat, body: Bytes, lost: bool)
    requires Inv(s) && Enabled(s, AgentRead(k, body, lost))
    ensures Emission(DoAgentRead(s, k, body, lost))
  {
    hide OutboundOk, UpOk, ReadersOk, InboxesOk, FreshOk, Conserved, Addressing, Intake;
    HeadSent(s, k);
    var Sent(from, frame) := s.down[k].wire[0];
    var t := s.(down := s.down[k := s.down[k].Pop()]);
    SameOutKeeps(s, t);
    match frame
    case OpenTunnel(cid, kind, complete) =>
      if complete {
        KeepSpawn(t, k, from, cid, kind);
      } else if !lost {
        var x := Emitted(Reader, ToConnection(cid, body));
        PushFlows(s.up, k, x);
        PushReaderFrame(Flows(s.up), s.owner, s.born, s.outbound, k, cid, body);
        PushConserved(s.outbound, s.born, Flows(s.up), s.reader, s.inbox, k, x);
      }
    case _ =>
  }

  lemma KeepEmissionWeb(s: State, e: Event)
    requires Inv(s) && Enabled(s, e) && WebStep(e)
    ensures Emission(Apply(s, e))
  {
    hide Inv, Shape, Enabled, Emission, Frame, SocketFrame, OnlyReader, SameTables, Route;
    hide DoAccept, DoWebOpen, DoWebRoute, DoWebResolve, DoWebPush, DoWebLeave, DoWebTell, DoWebGone,
         DoRegister, DoServeFrame, DoServeNotify, DoServeEnd, DoCollect, DoCollectEnd, DoSweepOne, DoInform,
         DoSweepEnd, DoStaleNode, DoStaleConnection, DoMoveDown, DoMoveUp, DoLoseUp, DoAgentRead, DoAgentInsert,
         DoAgentDeliver, DoAgentClose, DoAgentCloseEnd, DoAgentDrop, DoEmit, DoConsume;
    match e
    case Accept(c) => KeepAccept(s, c);
    case WebOpen(c, n, kind, complete) => KeepOpen(s, c, n, kind, complete);
    case WebRoute(c, n, sid, cmd) => KeepRoute(s, c, n, sid, cmd);
    case WebResolve(c) => KeepResolve(s, c);
    case WebPush(c, ok) => KeepPush(s, c, ok);
    case WebLeave(c) => KeepLeave(s, c);
    case WebTell(c, n, ok) => KeepTell(s, c, n, ok);
    case WebGone(c) => KeepGone(s, c);
  }

  lemma KeepEmissionServer(s: State, e: Event)
    requires Inv(s) && Enabled(s, e) && ServerStep(e)
    ensures Emission(Apply(s, e))
  {
    hide Inv, Shape, Enabled, Emission, Frame, SocketFrame, OnlyReader, SameTables, Route;
    hide DoRegister, DoServeFrame, DoServeNotify, DoServeEnd, DoCollect, DoCollectEnd, DoSweepOne, DoInform,
         DoSweepEnd, DoStaleNode, DoStaleConnection, DoAccept, DoWebOpen, DoWebRoute, DoWebResolve, DoWebPush,
         DoWebLeave, DoWebTell, DoWebGone, DoMoveDown, DoMoveUp, DoLoseUp, DoAgentRead, DoAgentInsert,
         DoAgentDeliver, DoAgentClose, DoAgentCloseEnd, DoAgentDrop, DoEmit, DoConsume;
    match e
    case Register(n) => KeepRegister(s, n);
    case ServeFrame(k) => KeepServe(s, k);
    case ServeNotify(k, ok) => KeepNotify(s, k, ok);
    case ServeEnd(k) => KeepEnd(s, k);
    case Collect(k, key) => KeepCollect(s, k, key);
    case CollectEnd(k) => KeepCollectEnd(s, k);
    case SweepOne(k) => KeepSweepOne(s, k);
    case Inform(k, ok) => KeepInform(s, k, ok);
    case SweepEnd(k) => KeepSweepEnd(s, k);
    case StaleNode(n) => KeepStaleNode(s, n);
    case StaleConnection(c) => KeepStaleConnection(s, c);
  }

  lemma KeepEmissionAgent(s: State, e: Event)
    requires Inv(s) && Enabled(s, e) && !WebStep(e) && !ServerStep(e)
    ensures Emission(Apply(s, e))
  {
    hide Inv, Shape, Enabled, Emission, Frame, SocketFrame, OnlyReader, SameTables, Route;
    hide DoMoveDown, DoMoveUp, DoLoseUp, DoAgentRead, DoAgentInsert, DoAgentDeliver, DoAgentClose, DoAgentCloseEnd,
         DoAgentDrop, DoEmit, DoConsume, DoAccept, DoWebOpen, DoWebRoute, DoWebResolve, DoWebPush,
         DoWebLeave, DoWebTell, DoWebGone, DoRegister, DoServeFrame, DoServeNotify, DoServeEnd, DoCollect,
         DoCollectEnd, DoSweepOne, DoInform, DoSweepEnd, DoStaleNode, DoStaleConnection;
    match e
    case MoveDown(k) => KeepMoveDown(s, k);
    case MoveUp(k) => KeepMoveUp(s, k);
    case LoseUp(k) => KeepLose(s, k);
    case AgentRead(k, body, lost) => KeepRead(s, k, body, lost);
    case AgentInsert(k) => KeepInsert(s, k);
    case AgentDeliver(k) => KeepDeliver(s, k);
    case AgentClose(k, h) => KeepClose(s, k, h);
    case AgentCloseEnd(k) => KeepCloseEnd(s, k);
    case AgentDrop(k, h) => KeepDrop(s, k, h);
    case Emit(key, frame, next, lost) => KeepEmit(s, key, frame, next, lost);
    case Consume(key) => KeepConsume(s, key);
  }

  lemma KeepEmission(s: State, e: Event)
    requires Inv(s) && Enabled(s, e)
    ensures Emission(Apply(s, e))
  {
    hide Inv, Shape, Enabled, Apply, Emission;
    if WebStep(e) {
      KeepEmissionWeb(s, e);
    } else if ServerStep(e) {
      KeepEmissionServer(s, e);
    } else {
      KeepEmissionAgent(s, e);
    }
  }
}
