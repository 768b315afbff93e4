/** What the relay guarantees over whole runs. */
module RelayTheorems {
  import opened Protocol
  import opened Pipes
  import opened RelayModel
  import opened RelayInvariants
  import RelayAddressing
  import RelayEmissionSteps
  import RelayIntakeSteps

  /** `es` is a possible interleaving that leads from `s` to `t`. */
  ghost predicate Run(s: State, es: seq<Event>, t: State)
    decreases |es|
  {
    if es == [] then s == t
    else Shape(s) && Enabled(s, es[0]) && Run(Apply(s, es[0]), es[1..], t)
  }

  lemma InvStep(s: State, e: Event)
    requires Inv(s) && Enabled(s, e)
    ensures Inv(Apply(s, e))
  {
    hide Shape, Addressing, Emission, Intake, Enabled, Apply;
    RelayAddressing.KeepAddressing(s, e);
    RelayEmissionSteps.KeepEmission(s, e);
    RelayIntakeSteps.KeepIntake(s, e);
  }

  lemma {:induction false} InvRun(s: State, es: seq<Event>, t: State)
    requires Inv(s) && Run(s, es, t)
    ensures Inv(t)
    decreases |es|
  {
    hide Inv, Shape, Enabled, Apply;
    if es != [] {
      InvStep(s, es[0]);
      InvRun(Apply(s, es[0]), es[1..], t);
    }
  }

  lemma InvInit()
    ensures Inv(Init())
  {
  }

  /** In every interleaving, a session receives commands only from the connection whose
      OpenTunnel created it, and what it emits reaches only that connection. */
  lemma Isolation(es: seq<Event>, s: State)
    requires Run(Init(), es, s)
    ensures forall key :: key in s.inbound ==>
      && key in s.born
      && From(s.inbound[key].stdin, s.born[key].creator) && From(s.inbound[key].consumed, s.born[key].creator)
    ensures forall c, i :: c in s.inbox && 0 <= i < |s.inbox[c]| && s.inbox[c][i].FromSession? ==>
      var key := Key(s.inbox[c][i].node, s.inbox[c][i].sid);
      key in s.born && s.born[key].creator == c
  {
    hide Run;
    InvInit();
    InvRun(Init(), es, s);
    forall c, i | c in s.inbox && 0 <= i < |s.inbox[c]| && s.inbox[c][i].FromSession?
      ensures var key := Key(s.inbox[c][i].node, s.inbox[c][i].sid); key in s.born && s.born[key].creator == c
    {
      assert InboxOk(s.inbox[c], c, s.born, s.outbound);
      assert DeliveryOk(s.inbox[c][i], c, s.born, s.outbound);
    }
  }

  // --- inbound fidelity -------------------------------------------------------------------------

  /** The bytes of the tunnel data in a sequence of commands. */
  function Stdin(gots: seq<Got>): Bytes {
    if gots == [] then []
    else (if gots[0].cmd.Data? then gots[0].cmd.bytes else []) + Stdin(gots[1..])
  }

  lemma {:induction false} StdinConcat(a: seq<Got>, b: seq<Got>)
    ensures Stdin(a + b) == Stdin(a) + Stdin(b)
  {
    if a == [] {
      assert a + b == b;
    } else {
      assert (a + b)[1..] == a[1..] + b;
      StdinConcat(a[1..], b);
    }
  }

  /** What a session's loop has taken is a prefix of what the server accepted for the
      session: no loss in the middle, no reordering, no duplicate.  For SSH this holds
      of the bytes handed to the channel. */
  lemma InboundFidelity(es: seq<Event>, s: State, key: Key)
    requires Run(Init(), es, s) && key in s.inbound
    ensures s.inbound[key].consumed <= s.inbound[key].accepted
    ensures Stdin(s.inbound[key].consumed) <= Stdin(s.inbound[key].accepted)
  {
    hide Run, Inv;
    InvInit();
    InvRun(Init(), es, s);
    TakenPrefix(s, key);
    var taken, all := s.inbound[key].consumed, s.inbound[key].accepted;
    assert all == taken + all[|taken|..];
    StdinConcat(taken, all[|taken|..]);
  }

  lemma TakenPrefix(s: State, key: Key)
    requires Inv(s) && key in s.inbound
    ensures s.inbound[key].consumed <= s.inbound[key].accepted
  {
    hide Addressing, Emission, Intake;
    RelayIntakeSteps.StreamIs(s, key);
  }

  // --- what stays true once it is true ------------------------------------------------------------

  /** A session that was closed in `outbound` can only see its own TunnelClosed delivered. */
  predicate Lively(d: Delivery, outbound: map<Key, Outbound>) {
    d.FromSession? && Key(d.node, d.sid) in outbound && Retired(outbound[Key(d.node, d.sid)]) ==> d.frame.TunnelClosed?
  }

  ghost predicate Longer(box: seq<Delivery>, box': seq<Delivery>, outbound: map<Key, Outbound>) {
    box <= box' && forall i :: |box| <= i < |box'| ==> Lively(box'[i], outbound)
  }

  ghost predicate StillRetired(outbound: map<Key, Outbound>, outbound': map<Key, Outbound>) {
    forall key :: key in outbound ==>
      && key in outbound' && outbound[key].heard <= outbound'[key].heard
      && (Retired(outbound[key]) ==> Retired(outbound'[key]))
  }

  ghost predicate StillQuiet(quiet: seq<set<Uuid>>, quiet': seq<set<Uuid>>) {
    |quiet| <= |quiet'| && forall k :: 0 <= k < |quiet| ==> quiet[k] <= quiet'[k]
  }

  ghost predicate MoreMail(inbox: map<Uuid, seq<Delivery>>, inbox': map<Uuid, seq<Delivery>>,
                           outbound: map<Key, Outbound>) {
    forall c :: c in inbox ==> c in inbox' && Longer(inbox[c], inbox'[c], outbound)
  }

  ghost predicate Progress(s: State, t: State) {
    && RelayAddressing.Wider(s.born, t.born)
    && StillRetired(s.outbound, t.outbound)
    && StillQuiet(s.quiet, t.quiet)
    && MoreMail(s.inbox, t.inbox, s.outbound)
  }

  lemma Reflexive(born: map<Key, Birth>, outbound: map<Key, Outbound>, quiet: seq<set<Uuid>>,
                  inbox: map<Uuid, seq<Delivery>>)
    ensures RelayAddressing.Wider(born, born) && StillRetired(outbound, outbound) && StillQuiet(quiet, quiet)
    ensures MoreMail(inbox, inbox, outbound)
  {
  }

  lemma SetOutbound(outbound: map<Key, Outbound>, key: Key, ob: Outbound)
    requires key in outbound ==> outbound[key].heard <= ob.heard && (Retired(outbound[key]) ==> Retired(ob))
    ensures StillRetired(outbound, outbound[key := ob])
  {
  }

  lemma AddMail(inbox: map<Uuid, seq<Delivery>>, outbound: map<Key, Outbound>, to: Uuid, d: Delivery)
    requires to in inbox && Lively(d, outbound)
    ensures MoreMail(inbox, inbox[to := inbox[to] + [d]], outbound)
  {
  }

  lemma ProgressTrans(s: State, t: State, u: State)
    requires Progress(s, t) && Progress(t, u)
    ensures Progress(s, u)
  {
    forall c | c in s.inbox ensures Longer(s.inbox[c], u.inbox[c], s.outbound) {
      assert Longer(s.inbox[c], t.inbox[c], s.outbound) && Longer(t.inbox[c], u.inbox[c], t.outbound);
      forall i | |s.inbox[c]| <= i < |u.inbox[c]| ensures Lively(u.inbox[c][i], s.outbound) {
        if i < |t.inbox[c]| {
          assert Lively(t.inbox[c][i], s.outbound);
        } else {
          assert Lively(u.inbox[c][i], t.outbound);
        }
      }
    }
  }

  /** A retired session has produced its last frame and the server has heard all of it. */
  lemma RetiredIsOver(s: State, key: Key)
    requires Inv(s) && key in s.born && Retired(s.outbound[key])
    ensures s.phase[key] == Ended && s.outbound[key].heard == |s.outbound[key].produced|
  {
    hide Addressing, Intake, UpOk, ReadersOk, InboxesOk, FreshOk, Conserved;
    assert ProducedOk(s.born[key], key.sid, s.phase[key], s.outbound[key]);
  }

  /** The head of a socket's flow is never of a retired session. */
  lemma HeadAlive(s: State, k: nat)
    requires Inv(s) && Enabled(s, ServeFrame(k))
    ensures var x := s.up[k].wire[0];
            x.source.Session? && Key(s.owner[k], x.source.sid) in s.outbound ==>
              var ob := s.outbound[Key(s.owner[k], x.source.sid)];
              !Retired(ob) && ob.heard <= x.source.index
  {
    hide Addressing, Intake, OutboundOk, UpOk, ReadersOk, InboxesOk, FreshOk, Conserved, Retired;
    PopFlows(s.up, k);
    var x := s.up[k].wire[0];
    RelayEmissionSteps.FlowAt(Flows(s.up), s.owner, s.born, s.outbound, k, 0);
    if x.source.Session? && Retired(s.outbound[Key(s.owner[k], x.source.sid)]) {
      RetiredIsOver(s, Key(s.owner[k], x.source.sid));
    }
  }

  lemma ServeProgress(s: State, k: nat)
    requires Inv(s) && Enabled(s, ServeFrame(k))
    ensures Progress(s, DoServeFrame(s, k))
  {
    hide Addressing, Emission, Intake, StillRetired, StillQuiet, MoreMail, RelayAddressing.Wider, Retired, Lively;
    Reflexive(s.born, s.outbound, s.quiet, s.inbox);
    hide Route;
    HeadAlive(s, k);
    var x, n := s.up[k].wire[0], s.owner[k];
    if x.source.Session? && Key(n, x.source.sid) in s.outbound {
      var key := Key(n, x.source.sid);
      SetOutbound(s.outbound, key, DoServeFrame(s, k).outbound[key]);
    }
  }

  lemma HeldLively(s: State, k: nat)
    requires Inv(s) && k < |s.owner| && s.reader[k].Notifying?
    ensures Lively(s.reader[k].what, s.outbound)
  {
    hide Addressing, Intake, OutboundOk, UpOk, ReadersOk, InboxesOk, FreshOk, Conserved;
    RelayEmissionSteps.ReaderAt(s, k);
  }

  lemma DroppedRetired(ob: Outbound, dropped: set<nat>)
    ensures Retired(ob) ==> Retired(ob.(dropped := dropped))
  {
  }

  lemma NotifyProgress(s: State, k: nat, ok: bool)
    requires Inv(s) && Enabled(s, ServeNotify(k, ok))
    ensures Progress(s, DoServeNotify(s, k, ok))
  {
    hide Addressing, Emission, Intake, StillRetired, StillQuiet, MoreMail, RelayAddressing.Wider, Retired, Lively;
    Reflexive(s.born, s.outbound, s.quiet, s.inbox);
    HeldLively(s, k);
    var Notifying(to, d) := s.reader[k];
    var t := DoServeNotify(s, k, ok);
    if ok && to in s.connections {
      AddMail(s.inbox, s.outbound, to, d);
    } else if d.FromSession? && Key(d.node, d.sid) in s.outbound {
      var key := Key(d.node, d.sid);
      DroppedRetired(s.outbound[key], t.outbound[key].dropped);
      SetOutbound(s.outbound, key, t.outbound[key]);
    }
  }

  lemma InformProgress(s: State, k: nat, ok: bool)
    requires Inv(s) && Enabled(s, Inform(k, ok))
    ensures Progress(s, DoInform(s, k, ok))
  {
    hide Addressing, Emission, Intake, StillRetired, StillQuiet, MoreMail, RelayAddressing.Wider, Retired;
    Reflexive(s.born, s.outbound, s.quiet, s.inbox);
    var Informing(key, to, rest) := s.reader[k];
    if ok && to in s.connections {
      AddMail(s.inbox, s.outbound, to, NodeGone(key.node, key.sid));
    }
  }

  lemma LoseProgress(s: State, k: nat)
    requires Inv(s) && Enabled(s, LoseUp(k))
    ensures Progress(s, DoLoseUp(s, k))
  {
    hide Addressing, Emission, Intake, StillRetired, StillQuiet, MoreMail, RelayAddressing.Wider, Retired, Lively;
    Reflexive(s.born, s.outbound, s.quiet, s.inbox);
    var x, n, t := s.up[k].queue[0], s.owner[k], DoLoseUp(s, k);
    if x.source.Session? && Key(n, x.source.sid) in s.outbound {
      var key := Key(n, x.source.sid);
      DroppedRetired(s.outbound[key], t.outbound[key].dropped);
      SetOutbound(s.outbound, key, t.outbound[key]);
    }
  }

  lemma EmitProgress(s: State, key: Key, frame: UpFrame, next: Phase, lost: bool)
    requires Inv(s) && Enabled(s, Emit(key, frame, next, lost))
    ensures Progress(s, DoEmit(s, key, frame, next, lost))
  {
    hide Addressing, Emission, Intake, StillRetired, StillQuiet, MoreMail, RelayAddressing.Wider, Retired, Lively;
    Reflexive(s.born, s.outbound, s.quiet, s.inbox);
    if Retired(s.outbound[key]) {
      RetiredIsOver(s, key);
    }
    SetOutbound(s.outbound, key, DoEmit(s, key, frame, next, lost).outbound[key]);
  }

  lemma SpawnProgress(born: map<Key, Birth>, outbound: map<Key, Outbound>, key: Key, b: Birth)
    requires key !in born && key !in outbound
    ensures RelayAddressing.Wider(born, born[key := b]) && StillRetired(outbound, outbound[key := Outbound([], {}, 0)])
  {
  }

  lemma ReadProgress(s: State, k: nat, body: Bytes, lost: bool)
    requires Inv(s) && Enabled(s, AgentRead(k, body, lost))
    ensures Progress(s, DoAgentRead(s, k, body, lost))
  {
    hide Addressing, Emission, Intake, StillRetired, StillQuiet, MoreMail, RelayAddressing.Wider, Retired, Lively;
    Reflexive(s.born, s.outbound, s.quiet, s.inbox);
    hide AfterPop, Counter;
    RelayIntakeSteps.FreshSid(s, k);
    var key := Key(s.owner[k], Counter(s.counter, s.owner[k]));
    var frame := s.down[k].wire[0].frame;
    if frame.OpenTunnel? {
      SpawnProgress(s.born, s.outbound, key, Birth(frame.kind, s.down[k].wire[0].from, frame.cid, k));
    }
  }

  lemma AcceptProgress(s: State, c: Uuid)
    requires Inv(s) && Enabled(s, Accept(c))
    ensures Progress(s, DoAccept(s, c))
  {
    hide Addressing, Emission, Intake, StillRetired, StillQuiet, RelayAddressing.Wider;
    Reflexive(s.born, s.outbound, s.quiet, s.inbox);
  }

  lemma RegisterProgress(s: State, n: Uuid)
    requires Inv(s) && Enabled(s, Register(n))
    ensures Progress(s, DoRegister(s, n))
  {
    hide Addressing, Emission, Intake, StillRetired, MoreMail, RelayAddressing.Wider;
    Reflexive(s.born, s.outbound, s.quiet, s.inbox);
  }

  lemma CloseEndProgress(s: State, k: nat)
    requires Inv(s) && Enabled(s, AgentCloseEnd(k))
    ensures Progress(s, DoAgentCloseEnd(s, k))
  {
    hide Addressing, Emission, Intake, StillRetired, MoreMail, RelayAddressing.Wider;
    Reflexive(s.born, s.outbound, s.quiet, s.inbox);
  }

  lemma FrameProgress(s: State, t: State)
    requires Frame(s, t)
    ensures Progress(s, t)
  {
    hide StillRetired, StillQuiet, MoreMail, RelayAddressing.Wider;
    Reflexive(s.born, s.outbound, s.quiet, s.inbox);
  }

  lemma StepProgressWeb(s: State, e: Event)
    requires Shape(s) && Inv(s) && Enabled(s, e) && WebStep(e)
    ensures Progress(s, Apply(s, e))
  {
    hide Inv, Shape, Enabled, Progress, Frame, SocketFrame, OnlyReader, SameTables, Route;
    hide DoAccept, DoWebOpen, DoWebRoute, DoWebResolve, DoWebPush, DoWebLeave, DoWebTell, DoWebGone,
         DoRegister, DoServeFrame, DoServeNotify, DoServeEnd, DoCollect, DoCollectEnd, DoSweepOne, DoInform,
         DoSweepEnd, DoStaleNode, DoStaleConnection, DoMoveDown, DoMoveUp, DoLoseUp, DoAgentRead, DoAgentInsert,
         DoAgentDeliver, DoAgentClose, DoAgentCloseEnd, DoAgentDrop, DoEmit, DoConsume;
    match e
    case Accept(c) => AcceptProgress(s, c);
    case WebOpen(c, n, kind, complete) => FrameProgress(s, DoWebOpen(s, c, n, kind, complete));
    case WebRoute(c, n, sid, cmd) => FrameProgress(s, DoWebRoute(s, c, n, sid, cmd));
    case WebResolve(c) => FrameProgress(s, DoWebResolve(s, c));
    case WebPush(c, ok) => FrameProgress(s, DoWebPush(s, c, ok));
    case WebLeave(c) => FrameProgress(s, DoWebLeave(s, c));
    case WebTell(c, n, ok) => FrameProgress(s, DoWebTell(s, c, n, ok));
    case WebGone(c) => FrameProgress(s, DoWebGone(s, c));
  }

  lemma StepProgressServer(s: State, e: Event)
    requires Shape(s) && Inv(s) && Enabled(s, e) && ServerStep(e)
    ensures Progress(s, Apply(s, e))
  {
    hide Inv, Shape, Enabled, Progress, Frame, SocketFrame, OnlyReader, SameTables, Route;
    hide DoRegister, DoServeFrame, DoServeNotify, DoServeEnd, DoCollect, DoCollectEnd, DoSweepOne, DoInform,
         DoSweepEnd, DoStaleNode, DoStaleConnection, DoAccept, DoWebOpen, DoWebRoute, DoWebResolve, DoWebPush,
         DoWebLeave, DoWebTell, DoWebGone, DoMoveDown, DoMoveUp, DoLoseUp, DoAgentRead, DoAgentInsert,
         DoAgentDeliver, DoAgentClose, DoAgentCloseEnd, DoAgentDrop, DoEmit, DoConsume;
    match e
    case Register(n) => RegisterProgress(s, n);
    case ServeFrame(k) => ServeProgress(s, k);
    case ServeNotify(k, ok) => NotifyProgress(s, k, ok);
    case Inform(k, ok) => InformProgress(s, k, ok);
    case ServeEnd(k) => FrameProgress(s, DoServeEnd(s, k));
    case Collect(k, key) => FrameProgress(s, DoCollect(s, k, key));
    case CollectEnd(k) => FrameProgress(s, DoCollectEnd(s, k));
    case SweepOne(k) => FrameProgress(s, DoSweepOne(s, k));
    case SweepEnd(k) => FrameProgress(s, DoSweepEnd(s, k));
    case StaleNode(n) => FrameProgress(s, DoStaleNode(s, n));
    case StaleConnection(c) => FrameProgress(s, DoStaleConnection(s, c));
  }

  lemma StepProgressAgent(s: State, e: Event)
    requires Shape(s) && Inv(s) && Enabled(s, e) && !WebStep(e) && !ServerStep(e)
    ensures Progress(s, Apply(s, e))
  {
    hide Inv, Shape, Enabled, Progress, Frame, SocketFrame, OnlyReader, SameTables, Route;
    hide DoMoveDown, DoMoveUp, DoLoseUp, DoAgentRead, DoAgentInsert, DoAgentDeliver, DoAgentClose, DoAgentCloseEnd,
         DoAgentDrop, DoEmit, DoConsume, DoAccept, DoWebOpen, DoWebRoute, DoWebResolve, DoWebPush,
         DoWebLeave, DoWebTell, DoWebGone, DoRegister, DoServeFrame, DoServeNotify, DoServeEnd, DoCollect,
         DoCollectEnd, DoSweepOne, DoInform, DoSweepEnd, DoStaleNode, DoStaleConnection;
    match e
    case LoseUp(k) => LoseProgress(s, k);
    case AgentRead(k, body, lost) => ReadProgress(s, k, body, lost);
    case AgentCloseEnd(k) => CloseEndProgress(s, k);
    case Emit(key, frame, next, lost) => EmitProgress(s, key, frame, next, lost);
    case MoveDown(k) => FrameProgress(s, DoMoveDown(s, k));
    case MoveUp(k) => FrameProgress(s, DoMoveUp(s, k));
    case AgentInsert(k) => FrameProgress(s, DoAgentInsert(s, k));
    case AgentDeliver(k) => FrameProgress(s, DoAgentDeliver(s, k));
    case AgentClose(k, handle) => FrameProgress(s, DoAgentClose(s, k, handle));
    case AgentDrop(k, handle) => FrameProgress(s, DoAgentDrop(s, k, handle));
    case Consume(key) => FrameProgress(s, DoConsume(s, key));
  }

  lemma StepProgress(s: State, e: Event)
    requires Inv(s) && Enabled(s, e)
    ensures Progress(s, Apply(s, e))
  {
    hide Shape, Addressing, Emission, Intake, Enabled, Apply, Progress;
    if WebStep(e) {
      StepProgressWeb(s, e);
    } else if ServerStep(e) {
      StepProgressServer(s, e);
    } else {
      StepProgressAgent(s, e);
    }
  }

  lemma {:induction false} RunProgress(s: State, es: seq<Event>, t: State)
    requires Inv(s) && Run(s, es, t)
    ensures Progress(s, t)
    decreases |es|
  {
    hide Inv, Shape, Enabled, Apply, Progress;
    if es == [] {
      FrameProgress(s, t) by { assert Frame(s, t); }
    } else {
      var m := Apply(s, es[0]);
      InvStep(s, es[0]);
      StepProgress(s, es[0]);
      RunProgress(m, es[1..], t);
      ProgressTrans(s, m, t);
    }
  }

  /** Closed sessions stay dead: once the server has handled a session's TunnelClosed, no
      continuation of the run routes to the session again, and the only frame of the
      session that can still reach a connection is that TunnelClosed. */
  lemma ClosedStaysDead(es: seq<Event>, s: State, more: seq<Event>, t: State, key: Key)
    requires Run(Init(), es, s) && Run(s, more, t) && key in s.outbound && Retired(s.outbound[key])
    ensures key in t.outbound && Retired(t.outbound[key]) && key !in t.routes
    ensures forall c :: c in s.inbox ==> c in t.inbox && Longer(s.inbox[c], t.inbox[c], s.outbound)
  {
    hide Run, Inv;
    InvInit();
    InvRun(Init(), es, s);
    InvRun(s, more, t);
    RunProgress(s, more, t);
    Unrouted(t, key);
  }

  lemma Unrouted(t: State, key: Key)
    requires Inv(t) && key in t.outbound && Retired(t.outbound[key])
    ensures key !in t.routes
  {
    hide Shape, Emission, Intake, NodesOk, BornOk, WebOk, DownOk, AgentsOk, HandlesOk, InsertedOk, TagsOk;
  }

  /** An agent announces a session at most once, first of all its frames, and closes it
      at most once, after the announcement and last of all. */
  lemma OneOpenedOneClosed(es: seq<Event>, s: State, key: Key, i: nat, j: nat)
    requires Run(Init(), es, s) && key in s.outbound
    requires i < |s.outbound[key].produced| && j < |s.outbound[key].produced|
    ensures key in s.born
    ensures var p := s.outbound[key].produced;
            && (p[i].TunnelOpened? && p[j].TunnelOpened? ==> i == j)
            && (p[i].TunnelClosed? && p[j].TunnelClosed? ==> i == j)
            && (p[i].TunnelClosed? ==> i == |p| - 1 && p[0].TunnelOpened? && 0 < i)
            && (p[i].TunnelOpened? ==> p[i] == TunnelOpened(s.born[key].cid, key.sid))
            && (p[i].TunnelClosed? ==> p[i] == TunnelClosed(s.born[key].cid, key.sid))
  {
    hide Run, Inv;
    InvInit();
    InvRun(Init(), es, s);
    Announced(s, key);
  }

  lemma Announced(s: State, key: Key)
    requires Inv(s) && key in s.outbound
    ensures key in s.born && key in s.phase && ProducedOk(s.born[key], key.sid, s.phase[key], s.outbound[key])
  {
    hide Addressing, Intake, UpOk, ReadersOk, InboxesOk, FreshOk, Conserved, ProducedOk;
  }

  /** A disconnect is a barrier.  On every socket no frame of a connection follows its
      ConnectionDisconnect; and once an agent has finished handling it, no continuation
      of the run ever gives that agent a handle of the connection again. */
  lemma DisconnectIsBarrier(es: seq<Event>, s: State, more: seq<Event>, t: State, k: nat, c: Uuid)
    requires Run(Init(), es, s) && Run(s, more, t) && k < |s.owner| && k < |s.quiet| && c in s.quiet[k]
    ensures k < |t.quiet| && c in t.quiet[k] && k < |t.handles|
    ensures forall h :: h in t.handles[k] ==> h.0 != c
    ensures k < |t.down| && Silent(Flows(t.down)[k], c)
  {
    hide Run, Inv;
    InvInit();
    InvRun(Init(), es, s);
    InvRun(s, more, t);
    RunProgress(s, more, t);
    BarrierAt(t, k);
  }

  lemma BarrierAt(s: State, k: nat)
    requires Inv(s) && k < |s.quiet|
    ensures k < |s.down| && k < |s.agent| && k < |s.handles| && k < |s.owner|
    ensures BarrierOk(Flows(s.down)[k], s.owner[k], s.web, s.agent[k], s.handles[k], s.quiet[k])
  {
    hide Addressing, Emission, Streams, MovedOk, BarrierOk;
  }

  lemma NothingFollowsDisconnect(es: seq<Event>, s: State, k: nat, i: nat, j: nat)
    requires Run(Init(), es, s) && k < |s.down| && i < j < |Flows(s.down)[k]|
    requires Flows(s.down)[k][i].frame.ConnectionDisconnect?
    ensures Flows(s.down)[k][j].frame.cid != Flows(s.down)[k][i].frame.cid
  {
    hide Run;
    InvInit();
    InvRun(Init(), es, s);
    hide Addressing, Emission, Intake;
    BarrierAt(s, k);
  }

  /** Happens-before at open: when an agent's reader takes a command for session `sid`, the
      session exists, and if it was opened on this socket its handle was stored before,
      even though the session's task may have announced it earlier than that. */
  lemma HandleBeforeCommand(es: seq<Event>, s: State, k: nat)
    requires Run(Init(), es, s) && k < |s.agent| && k < |s.down| && k < |s.owner|
    requires s.agent[k].AgentIdle? && s.down[k].wire != [] && s.down[k].wire[0].frame.Forward?
    ensures var Sent(from, frame) := s.down[k].wire[0];
            var key := Key(s.owner[k], frame.sid);
            key in s.born && s.born[key].creator == from && (s.born[key].socket == k ==> key in s.inserted)
  {
    hide Run;
    InvInit();
    InvRun(Init(), es, s);
    hide Emission, Intake, NodesOk, RoutesOk, WebOk, AgentsOk, HandlesOk, TagsOk;
    PopFlows(s.down, k);
    assert SentOk(Flows(s.down)[k][0], s.owner[k], s.born, s.web.Keys);
  }

  /** Storing a handle never displaces another session's handle. */
  lemma InsertDisplacesNothing(es: seq<Event>, s: State, k: nat)
    requires Run(Init(), es, s) && k < |s.agent| && k < |s.handles| && s.agent[k].Inserting?
    ensures (s.agent[k].cid, s.agent[k].sid) !in s.handles[k]
  {
    hide Run;
    InvInit();
    InvRun(Init(), es, s);
    hide Emission, Intake, NodesOk, RoutesOk, WebOk, DownOk, BornOk, TagsOk;
    assert AgentPcOk(k, s.agent[k], s.owner[k], s.born, s.inserted);
  }

  /** Outbound order: deliveries of one session are frames it produced, in the order it
      produced them, none twice. */
  lemma OutboundInOrder(es: seq<Event>, s: State, c: Uuid, i: nat, j: nat)
    requires Run(Init(), es, s) && c in s.inbox && i < j < |s.inbox[c]| && SameOrigin(s.inbox[c][i], s.inbox[c][j])
    ensures var key := Key(s.inbox[c][i].node, s.inbox[c][i].sid);
            && key in s.outbound
            && s.inbox[c][i].index < s.inbox[c][j].index < |s.outbound[key].produced|
            && s.inbox[c][i].frame == s.outbound[key].produced[s.inbox[c][i].index]
            && s.inbox[c][j].frame == s.outbound[key].produced[s.inbox[c][j].index]
  {
    hide Run, Inv;
    InvInit();
    InvRun(Init(), es, s);
    BoxAt(s, c);
    assert Before(s.inbox[c][i], s.inbox[c][j]);
    assert DeliveryOk(s.inbox[c][i], c, s.born, s.outbound) && DeliveryOk(s.inbox[c][j], c, s.born, s.outbound);
  }

  lemma BoxAt(s: State, c: Uuid)
    requires Inv(s) && c in s.inbox
    ensures InboxOk(s.inbox[c], c, s.born, s.outbound)
  {
    hide Addressing, Intake, OutboundOk, UpOk, ReadersOk, FreshOk, Conserved, InboxOk;
  }

  /** A frame a session produced is missing from its connection's queue only if it was
      dropped, or is still on its way or in the hands of the server's reader. */
  lemma NothingVanishes(es: seq<Event>, s: State, key: Key, index: nat)
    requires Run(Init(), es, s) && key in s.outbound && index < |s.outbound[key].produced|
    ensures key in s.born && s.born[key].socket < |s.up| && s.born[key].socket < |s.reader|
      && s.born[key].cid in s.inbox
    ensures Accounted(key, index, s.outbound[key].dropped, Flows(s.up)[s.born[key].socket],
                      s.reader[s.born[key].socket],
                      s.inbox[s.born[key].cid])
  {
    hide Run;
    InvInit();
    InvRun(Init(), es, s);
    hide Addressing, Intake, OutboundOk, UpOk, ReadersOk, FreshOk, InboxesOk, Accounted;
  }

  /** The two lookups agree: a browser's (c, n, sid) resolves to node n exactly when the
      agent's (sid, n) resolves to connection c. */
  lemma LookupsAgree(es: seq<Event>, s: State, c: Uuid, n: Uuid, sid: nat)
    requires Run(Init(), es, s)
    ensures NodeByCidAndSid(s.routes, c, n, sid) == Some(n) <==> ConnectionBySid(s.routes, sid, n) == Some(c)
    ensures NodeByCidAndSid(s.routes, c, n, sid).Some? ==> NodeByCidAndSid(s.routes, c, n, sid) == Some(n)
  {
    hide Run;
    InvInit();
    InvRun(Init(), es, s);
    hide Shape, Emission, Intake, NodesOk, BornOk, WebOk, DownOk, AgentsOk, HandlesOk, InsertedOk, TagsOk;
  }

  /** A session that never announced itself stays unheard: if its first frame is an error
      addressed by session id, as when an SSH connection fails, the server has no route for it
      and none of its frames ever reaches a connection. */
  lemma UnannouncedNeverHeard(es: seq<Event>, s: State, key: Key)
    requires Run(Init(), es, s) && key in s.outbound
    requires s.outbound[key].produced != [] && s.outbound[key].produced[0].ToSession?
    ensures key !in s.routes
    ensures forall c, i :: c in s.inbox && 0 <= i < |s.inbox[c]| && s.inbox[c][i].FromSession? ==>
      Key(s.inbox[c][i].node, s.inbox[c][i].sid) != key
  {
    hide Run, Inv;
    InvInit();
    InvRun(Init(), es, s);
    OpenedRoutes(s, key);
    forall c, i | c in s.inbox && 0 <= i < |s.inbox[c]| && s.inbox[c][i].FromSession?
      ensures Key(s.inbox[c][i].node, s.inbox[c][i].sid) != key
    {
      BoxAt(s, c);
      assert DeliveryOk(s.inbox[c][i], c, s.born, s.outbound);
    }
  }

  /** Every routed session has announced itself and been heard. */
  lemma OpenedRoutes(s: State, key: Key)
    requires Inv(s)
    ensures key in s.routes ==> key in s.outbound && WasOpened(s.outbound[key])
  {
    hide Emission, Intake, NodesOk, BornOk, WebOk, DownOk, AgentsOk, HandlesOk, InsertedOk, TagsOk;
  }
}
