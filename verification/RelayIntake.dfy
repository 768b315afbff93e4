/** Every step keeps disconnects as barriers and command streams in order. */
module RelayIntake {
  import opened Protocol
  import opened Pipes
  import opened RelayModel
  import opened RelayInvariants

  // --- barriers ------------------------------------------------------------------------------

  /** A departing connection never comes back. */
  predicate Onward(old_: WebPc, new_: WebPc) {
    && (old_.Gone? ==> new_.Gone?)
    && (old_.Leaving? ==> new_.Gone? || (new_.Leaving? && old_.visited <= new_.visited))
  }

  lemma WebBarriers(flows: seq<seq<Sent>>, owner: seq<Uuid>, web: map<Uuid, WebPc>, agent: seq<AgentPc>,
                    handles: seq<map<(Uuid, nat), Kind>>, quiet: seq<set<Uuid>>, c: Uuid, pc: WebPc)
    requires Barriers(flows, owner, web, agent, handles, quiet) && (c in web ==> Onward(web[c], pc))
    ensures Barriers(flows, owner, web[c := pc], agent, handles, quiet)
  {
    forall k | 0 <= k < |owner| ensures BarrierOk(flows[k], owner[k], web[c := pc], agent[k], handles[k], quiet[k]) {
      assert BarrierOk(flows[k], owner[k], web, agent[k], handles[k], quiet[k]);
    }
  }

  lemma PushBarriers(flows: seq<seq<Sent>>, owner: seq<Uuid>, web: map<Uuid, WebPc>, agent: seq<AgentPc>,
                     handles: seq<map<(Uuid, nat), Kind>>, quiet: seq<set<Uuid>>, k: nat, x: Sent)
    requires Barriers(flows, owner, web, agent, handles, quiet) && k < |owner|
    requires !x.frame.ConnectionDisconnect? && !Departed(web, x.frame.cid, owner[k])
    ensures Barriers(flows[k := flows[k] + [x]], owner, web, agent, handles, quiet)
  {
    assert BarrierOk(flows[k], owner[k], web, agent[k], handles[k], quiet[k]);
  }

  lemma TellBarriers(flows: seq<seq<Sent>>, owner: seq<Uuid>, web: map<Uuid, WebPc>, agent: seq<AgentPc>,
                     handles: seq<map<(Uuid, nat), Kind>>, quiet: seq<set<Uuid>>, k: nat, c: Uuid)
    requires Barriers(flows, owner, web, agent, handles, quiet) && k < |owner|
    requires c in web && web[c].Leaving? && owner[k] !in web[c].visited
    ensures var web' := web[c := Leaving(web[c].visited + {owner[k]})];
            Barriers(flows[k := flows[k] + [Sent(c, ConnectionDisconnect(c))]], owner, web', agent, handles, quiet)
  {
    var web' := web[c := Leaving(web[c].visited + {owner[k]})];
    assert BarrierOk(flows[k], owner[k], web, agent[k], handles[k], quiet[k]);
    WebBarriers(flows, owner, web, agent, handles, quiet, c, Leaving(web[c].visited + {owner[k]}));
    assert BarrierOk(flows[k] + [Sent(c, ConnectionDisconnect(c))], owner[k], web', agent[k], handles[k], quiet[k]);
  }

  /** Where the agent's reader may go from the frame it pops. */
  predicate Follows(x: Sent, pc: AgentPc) {
    match pc
    case AgentIdle => true
    case Inserting(cid, _, _) => x.frame.OpenTunnel? && cid == x.frame.cid
    case Delivering(got, _) => x.frame.Forward? && got.from == x.frame.cid
    case Disconnecting(cid) => x.frame == ConnectionDisconnect(cid)
  }

  lemma PopBarriers(flows: seq<seq<Sent>>, owner: seq<Uuid>, web: map<Uuid, WebPc>, agent: seq<AgentPc>,
                    handles: seq<map<(Uuid, nat), Kind>>, quiet: seq<set<Uuid>>, k: nat, pc: AgentPc)
    requires Barriers(flows, owner, web, agent, handles, quiet) && k < |owner|
    requires agent[k].AgentIdle? && flows[k] != [] && Follows(flows[k][0], pc)
    ensures Barriers(flows[k := flows[k][1..]], owner, web, agent[k := pc], handles, quiet)
  {
    var flow := flows[k];
    assert BarrierOk(flow, owner[k], web, agent[k], handles[k], quiet[k]);
    assert BarrierOk(flow[1..], owner[k], web, pc, handles[k], quiet[k]) by {
      forall i | 0 <= i < |flow[1..]| ensures flow[1..][i] == flow[i + 1] {
      }
    }
  }

  lemma AgentBarriers(flows: seq<seq<Sent>>, owner: seq<Uuid>, web: map<Uuid, WebPc>, agent: seq<AgentPc>,
                      handles: seq<map<(Uuid, nat), Kind>>, quiet: seq<set<Uuid>>, k: nat, h: map<(Uuid, nat), Kind>,
                      q: set<Uuid>)
    requires Barriers(flows, owner, web, agent, handles, quiet) && k < |owner|
    requires forall key :: key in h ==> key in handles[k] || (agent[k].Inserting? && key.0 == agent[k].cid)
    requires q == quiet[k] ||
      (agent[k].Disconnecting? && q == quiet[k] + {agent[k].cid} && forall key :: key in h ==> key.0 != agent[k].cid)
    ensures Barriers(flows, owner, web, agent[k := AgentIdle], handles[k := h], quiet[k := q])
  {
    assert BarrierOk(flows[k], owner[k], web, agent[k], handles[k], quiet[k]);
    assert BarrierOk(flows[k], owner[k], web, AgentIdle, h, q);
  }

  lemma UnhandleBarriers(flows: seq<seq<Sent>>, owner: seq<Uuid>, web: map<Uuid, WebPc>, agent: seq<AgentPc>,
                         handles: seq<map<(Uuid, nat), Kind>>, quiet: seq<set<Uuid>>, k: nat, key: (Uuid, nat))
    requires Barriers(flows, owner, web, agent, handles, quiet) && k < |owner|
    ensures Barriers(flows, owner, web, agent, handles[k := handles[k] - {key}], quiet)
  {
    assert BarrierOk(flows[k], owner[k], web, agent[k], handles[k], quiet[k]);
  }

  lemma GrowBarriers(flows: seq<seq<Sent>>, owner: seq<Uuid>, web: map<Uuid, WebPc>, agent: seq<AgentPc>,
                     handles: seq<map<(Uuid, nat), Kind>>, quiet: seq<set<Uuid>>, n: Uuid)
    requires Barriers(flows, owner, web, agent, handles, quiet)
    ensures Barriers(flows + [[]], owner + [n], web, agent + [AgentIdle], handles + [map[]], quiet + [{}])
  {
    assert BarrierOk([], n, web, AgentIdle, map[], {});
  }

  // --- streams ----------------------------------------------------------------------------------

  lemma {:induction false} QueuedAppend(flow: seq<Sent>, x: Sent, sid: nat, kind: Kind)
    ensures Queued(flow + [x], sid, kind) == Queued(flow, sid, kind) + One(x, sid, kind)
  {
    if flow == [] {
      assert flow + [x] == [x];
    } else {
      assert (flow + [x])[1..] == flow[1..] + [x];
      QueuedAppend(flow[1..], x, sid, kind);
    }
  }

  lemma {:induction false} QueuedNone(flow: seq<Sent>, sid: nat, kind: Kind)
    requires forall i :: 0 <= i < |flow| && flow[i].frame.Forward? ==> flow[i].frame.sid != sid
    ensures Queued(flow, sid, kind) == []
  {
    if flow != [] {
      QueuedNone(flow[1..], sid, kind);
    }
  }

  lemma Assoc(a: seq<Got>, b: seq<Got>, c: seq<Got>, d: seq<Got>)
    ensures a + b + c + d == a + (b + c) + d && a + b + c + d == (a + b) + (c + d) && a + b + c + d == a + b + (c + d)
  {
  }

  /** A frame goes into the flow of the session's own socket. */
  lemma PushOwn(ib: Inbound, phase: Phase, handled: bool, pc: AgentPc, flow: seq<Sent>, sid: nat, kind: Kind, x: Sent)
    requires StreamOk(ib, phase, handled, pc, flow, sid, kind)
    requires One(x, sid, kind) != [] ==> !ib.moved
    ensures StreamOk(ib.(accepted := ib.accepted + One(x, sid, kind)), phase, handled, pc, flow + [x], sid, kind)
  {
    QueuedAppend(flow, x, sid, kind);
    Assoc(ib.consumed + ib.stdin, InHand(pc, sid), Queued(flow, sid, kind), One(x, sid, kind));
  }

  /** A command for the session goes into the flow of a newer socket. */
  lemma PushAway(ib: Inbound, phase: Phase, handled: bool, pc: AgentPc, flow: seq<Sent>, sid: nat, kind: Kind, got: Got)
    requires StreamOk(ib, phase, handled, pc, flow, sid, kind)
    ensures StreamOk(ib.(accepted := ib.accepted + [got], moved := true), phase, handled, pc, flow, sid, kind)
  {
  }

  /** Either of the two, or a push that does not concern the session. */
  lemma PushOne(ib: Inbound, phase: Phase, handled: bool, pc: AgentPc, flow: seq<Sent>, sid: nat, kind: Kind, x: Sent,
                own: bool, targeted: bool)
    requires StreamOk(ib, phase, handled, pc, flow, sid, kind) && (targeted ==> x.frame.Forward?)
    requires own ==> (targeted <==> One(x, sid, kind) != []) && (targeted ==> !ib.moved)
    ensures var ib' := if targeted then ib.(accepted := ib.accepted + [Got(x.from, x.frame.cmd)], moved := ib.moved
                                            || !own) else ib;
            StreamOk(ib', phase, handled, pc, if own then flow + [x] else flow, sid, kind)
  {
    hide StreamOk;
    if own {
      PushOwn(ib, phase, handled, pc, flow, sid, kind, x);
      assert ib.accepted + [] == ib.accepted;
    } else if targeted {
      PushAway(ib, phase, handled, pc, flow, sid, kind, Got(x.from, x.frame.cmd));
    }
  }

  /** The agent's reader pops a frame of the session's own socket. */
  lemma PopOwn(ib: Inbound, phase: Phase, handled: bool, flow: seq<Sent>, sid: nat, kind: Kind, pc: AgentPc)
    requires StreamOk(ib, phase, handled, AgentIdle, flow, sid, kind) && flow != []
    requires if handled then InHand(pc, sid) == One(flow[0], sid, kind) else InHand(pc, sid) == []
    ensures StreamOk(ib, phase, handled, pc, flow[1..], sid, kind)
  {
    Assoc(ib.consumed, ib.stdin, InHand(pc, sid), Queued(flow[1..], sid, kind));
  }

  /** The command in hand joins the session's queue. */
  lemma DeliverOwn(ib: Inbound, phase: Phase, handled: bool, pc: AgentPc, flow: seq<Sent>, sid: nat, kind: Kind)
    requires StreamOk(ib, phase, handled, pc, flow, sid, kind)
    ensures phase != Ended ==>
      StreamOk(ib.(stdin := ib.stdin + InHand(pc, sid)), phase, handled, AgentIdle, flow, sid, kind)
    ensures phase == Ended || InHand(pc, sid) == [] ==> StreamOk(ib, phase, handled, AgentIdle, flow, sid, kind)
  {
    hide Queued;
    var h, q := InHand(pc, sid), Queued(flow, sid, kind);
    assert InHand(AgentIdle, sid) == [];
    assert ib.consumed + (ib.stdin + h) + [] == ib.consumed + ib.stdin + h;
    assert ib.consumed + (ib.stdin + h) + [] + q == ib.consumed + ib.stdin + h + q;
  }

  lemma ConsumeOwn(ib: Inbound, handled: bool, pc: AgentPc, flow: seq<Sent>, sid: nat, kind: Kind)
    requires StreamOk(ib, Live, handled, pc, flow, sid, kind) && ib.stdin != []
    ensures StreamOk(ib.(stdin := ib.stdin[1..], consumed := ib.consumed + [ib.stdin[0]]), Live, handled, pc, flow,
                     sid, kind)
  {
    var consumed', stdin' := ib.consumed + [ib.stdin[0]], ib.stdin[1..];
    assert consumed' + stdin' == ib.consumed + ib.stdin;
    assert consumed' <= ib.consumed + ib.stdin + InHand(pc, sid);
  }

  /** Obligations only shrink when a handle goes away or a task moves on. */
  lemma Weaken(ib: Inbound, phase: Phase, phase': Phase, handled: bool, handled': bool, pc: AgentPc, flow: seq<Sent>,
               sid: nat, kind: Kind)
    requires StreamOk(ib, phase, handled, pc, flow, sid, kind)
    requires (phase' == Ended || phase != Ended) && (handled' ==> handled)
    ensures StreamOk(ib, phase', handled', pc, flow, sid, kind)
  {
  }
}
