/** Every step keeps the frames of every session in order and accounted for. */
module RelayEmission {
  import opened Protocol
  import opened Pipes
  import opened RelayModel
  import opened RelayInvariants

  // --- one column at a time ---------------------------------------------------------------

  lemma ServeUp(flows: seq<seq<Emitted>>, owner: seq<Uuid>, born: map<Key, Birth>, outbound: map<Key, Outbound>,
                k: nat, drop: bool)
    requires UpOk(flows, owner, born, outbound) && k < |flows| && flows[k] != []
    ensures UpOk(flows[k := flows[k][1..]], owner, born, HearIn(outbound, owner[k], flows[k][0].source, drop))
    ensures EmittedOk(flows[k][0], k, owner[k], born, outbound)
  {
    var outbound' := HearIn(outbound, owner[k], flows[k][0].source, drop);
    var flows' := flows[k := flows[k][1..]];
    assert FlowOk(flows[k], k, owner[k], born, outbound);
    forall j | 0 <= j < |flows| ensures FlowOk(flows'[j], j, owner[j], born, outbound') {
      assert FlowOk(flows[j], j, owner[j], born, outbound);
      forall i | 0 <= i < |flows'[j]| ensures EmittedOk(flows'[j][i], j, owner[j], born, outbound') {
        var i' := if j == k then i + 1 else i;
        assert flows'[j][i] == flows[j][i'];
        assert EmittedOk(flows[j][i'], j, owner[j], born, outbound);
        if j == k {
          assert SameSession(flows[k][0].source, flows[k][i'].source) ==>
            flows[k][0].source.index < flows[k][i'].source.index;
        }
      }
    }
  }

  /** Hearing a frame keeps every session's record good. */
  lemma HearOutbound(outbound: map<Key, Outbound>, born: map<Key, Birth>, phase: map<Key, Phase>, k: nat, node: Uuid,
                     x: Emitted, drop: bool)
    requires OutboundOk(outbound, born, phase) && EmittedOk(x, k, node, born, outbound)
    ensures OutboundOk(HearIn(outbound, node, x.source, drop), born, phase)
  {
    if x.source.Session? {
      var key := Key(node, x.source.sid);
      assert ProducedOk(born[key], key.sid, phase[key], outbound[key]);
    }
  }

  lemma ServeReader(reader: seq<NodePc>, owner: seq<Uuid>, born: map<Key, Birth>, outbound: map<Key, Outbound>,
                    k: nat, x: Emitted, target: Option<Uuid>)
    requires ReadersOk(reader, owner, born, outbound) && k < |reader| && reader[k].Serving?
    requires EmittedOk(x, k, owner[k], born, outbound)
    requires target.Some? && x.source.Session? ==>
      var key := Key(owner[k], x.source.sid);
      Owns(target.value, key, born) && key in outbound && outbound[key].produced != []
        && outbound[key].produced[0].TunnelOpened?
    requires target.Some? && x.source.Reader? ==> x.frame.cid == target.value
    ensures var pc := if target.Some? then Notifying(target.value, Describe(owner[k], x)) else Serving;
            ReadersOk(reader[k := pc], owner, born, HearIn(outbound, owner[k], x.source, target.None?))
  {
    var outbound' := HearIn(outbound, owner[k], x.source, target.None?);
    forall j | 0 <= j < |reader| && j != k ensures NodePcOk(reader[j], j, owner[j], born, outbound') {
      assert NodePcOk(reader[j], j, owner[j], born, outbound);
    }
  }

  lemma HearInboxes(inbox: map<Uuid, seq<Delivery>>, born: map<Key, Birth>, outbound: map<Key, Outbound>, k: nat,
                    node: Uuid, x: Emitted, drop: bool)
    requires InboxesOk(inbox, born, outbound) && EmittedOk(x, k, node, born, outbound)
    ensures InboxesOk(inbox, born, HearIn(outbound, node, x.source, drop))
  {
    var outbound' := HearIn(outbound, node, x.source, drop);
    forall c | c in inbox ensures InboxOk(inbox[c], c, born, outbound') {
      assert InboxOk(inbox[c], c, born, outbound);
      forall i | 0 <= i < |inbox[c]| ensures DeliveryOk(inbox[c][i], c, born, outbound') {
        assert DeliveryOk(inbox[c][i], c, born, outbound);
      }
    }
  }

  lemma ServeFresh(reader: seq<NodePc>, inbox: map<Uuid, seq<Delivery>>, born: map<Key, Birth>,
                   outbound: map<Key, Outbound>, k: nat, node: Uuid, x: Emitted, target: Option<Uuid>)
    requires FreshOk(reader, inbox) && InboxesOk(inbox, born, outbound) && EmittedOk(x, k, node, born, outbound)
    requires k < |reader|
    ensures FreshOk(reader[k := if target.Some? then Notifying(target.value, Describe(node, x)) else Serving], inbox)
  {
    var what := Describe(node, x);
    forall c, i | c in inbox && 0 <= i < |inbox[c]| ensures Before(inbox[c][i], what) {
      assert InboxOk(inbox[c], c, born, outbound);
      assert DeliveryOk(inbox[c][i], c, born, outbound);
    }
  }

  lemma PopInFlow(flow: seq<Emitted>, sid: nat, index: nat)
    requires flow != [] && InFlow(flow, sid, index)
    ensures flow[0].source == Session(sid, index) || InFlow(flow[1..], sid, index)
  {
    var j :| 0 <= j < |flow| && flow[j].source == Session(sid, index);
    if j > 0 {
      assert flow[1..][j - 1].source == Session(sid, index);
    }
  }

  lemma ServeConserved(outbound: map<Key, Outbound>, born: map<Key, Birth>, flows: seq<seq<Emitted>>,
                       reader: seq<NodePc>, inbox: map<Uuid, seq<Delivery>>, k: nat, node: Uuid, target: Option<Uuid>)
    requires Conserved(outbound, born, flows, reader, inbox) && k < |flows| && k < |reader| && reader[k].Serving?
    requires flows[k] != [] && EmittedOk(flows[k][0], k, node, born, outbound)
    requires forall key :: key in born && born[key].socket == k ==> key.node == node
    ensures var x := flows[k][0];
            var pc := if target.Some? then Notifying(target.value, Describe(node, x)) else Serving;
            Conserved(HearIn(outbound, node, x.source, target.None?), born, flows[k := flows[k][1..]],
                      reader[k := pc], inbox)
  {
    var x := flows[k][0];
    var pc := if target.Some? then Notifying(target.value, Describe(node, x)) else Serving;
    var outbound' := HearIn(outbound, node, x.source, target.None?);
    forall key | key in outbound' && born[key].socket == k
      ensures AllAccounted(key, outbound'[key], flows[k][1..], pc, inbox[born[key].cid])
    {
      forall i | 0 <= i < |outbound'[key].produced|
        ensures Accounted(key, i, outbound'[key].dropped, flows[k][1..], pc, inbox[born[key].cid])
      {
        assert Accounted(key, i, outbound[key].dropped, flows[k], Serving, inbox[born[key].cid]);
        if InFlow(flows[k], key.sid, i) {
          PopInFlow(flows[k], key.sid, i);
        }
      }
    }
  }

  lemma NotifyInboxes(inbox: map<Uuid, seq<Delivery>>, born: map<Key, Birth>, outbound: map<Key, Outbound>, to: Uuid,
                      d: Delivery)
    requires InboxesOk(inbox, born, outbound) && to in inbox && DeliveryOk(d, to, born, outbound)
    requires forall i :: 0 <= i < |inbox[to]| ==> Before(inbox[to][i], d)
    ensures InboxesOk(inbox[to := inbox[to] + [d]], born, outbound)
  {
    assert InboxOk(inbox[to], to, born, outbound);
  }

  lemma NotifyFresh(reader: seq<NodePc>, inbox: map<Uuid, seq<Delivery>>, k: nat, pc: NodePc, to: Uuid, d: Delivery)
    requires FreshOk(reader, inbox) && k < |reader| && to in inbox && !pc.Notifying?
    requires forall j :: 0 <= j < |reader| && j != k && reader[j].Notifying? ==> Before(d, reader[j].what)
    ensures FreshOk(reader[k := pc], inbox[to := inbox[to] + [d]])
  {
  }

  lemma GrowBox(box: seq<Delivery>, d: Delivery, key: Key, index: nat)
    ensures InBox(box, key, index) ==> InBox(box + [d], key, index)
    ensures d.FromSession? && d.node == key.node && d.sid == key.sid && d.index == index ==>
      InBox(box + [d], key, index)
  {
    if InBox(box, key, index) {
      var j :| 0 <= j < |box| && box[j].FromSession? && box[j].node == key.node && box[j].sid == key.sid
        && box[j].index == index;
      assert (box + [d])[j] == box[j];
    }
    assert (box + [d])[|box|] == d;
  }

  /** A held frame reaches an inbox. */
  lemma NotifyConserved(outbound: map<Key, Outbound>, born: map<Key, Birth>, flows: seq<seq<Emitted>>,
                        reader: seq<NodePc>, inbox: map<Uuid, seq<Delivery>>, k: nat, pc: NodePc, to: Uuid,
                        d: Delivery)
    requires Conserved(outbound, born, flows, reader, inbox) && k < |reader| && to in inbox
    requires reader[k].Notifying? ==> reader[k].what == d
    requires d.FromSession? && Key(d.node, d.sid) in born ==> born[Key(d.node, d.sid)].cid == to
    ensures Conserved(outbound, born, flows, reader[k := pc], inbox[to := inbox[to] + [d]])
  {
    var inbox' := inbox[to := inbox[to] + [d]];
    forall key | key in outbound
      ensures AllAccounted(key, outbound[key], flows[born[key].socket], reader[k := pc][born[key].socket],
                           inbox'[born[key].cid])
    {
      var m := born[key].socket;
      var pc', box' := reader[k := pc][m], inbox'[born[key].cid];
      forall i | 0 <= i < |outbound[key].produced|
        ensures Accounted(key, i, outbound[key].dropped, flows[m], pc', box')
      {
        assert Accounted(key, i, outbound[key].dropped, flows[m], reader[m], inbox[born[key].cid]);
        GrowBox(inbox[to], d, key, i);
      }
    }
  }

  /** Sessions whose records only gain dropped indices. */
  ghost predicate MoreDropped(outbound: map<Key, Outbound>, outbound': map<Key, Outbound>) {
    && outbound'.Keys == outbound.Keys
    && forall key :: key in outbound ==>
      && outbound'[key].produced == outbound[key].produced && outbound'[key].heard == outbound[key].heard
      && outbound[key].dropped <= outbound'[key].dropped
  }

  lemma DropKeeps(outbound: map<Key, Outbound>, outbound': map<Key, Outbound>, born: map<Key, Birth>,
                  phase: map<Key, Phase>, flows: seq<seq<Emitted>>, owner: seq<Uuid>, reader: seq<NodePc>,
                  inbox: map<Uuid, seq<Delivery>>)
    requires MoreDropped(outbound, outbound')
    ensures OutboundOk(outbound, born, phase) ==> OutboundOk(outbound', born, phase)
    ensures UpOk(flows, owner, born, outbound) ==> UpOk(flows, owner, born, outbound')
    ensures InboxesOk(inbox, born, outbound) ==> InboxesOk(inbox, born, outbound')
  {
    if OutboundOk(outbound, born, phase) {
      forall key | key in outbound'
        ensures key in born && key in phase && ProducedOk(born[key], key.sid, phase[key], outbound'[key]) {
        assert ProducedOk(born[key], key.sid, phase[key], outbound[key]);
      }
    }
    if UpOk(flows, owner, born, outbound) {
      forall k | 0 <= k < |flows| ensures FlowOk(flows[k], k, owner[k], born, outbound') {
        assert FlowOk(flows[k], k, owner[k], born, outbound);
        forall i | 0 <= i < |flows[k]| ensures EmittedOk(flows[k][i], k, owner[k], born, outbound') {
          assert EmittedOk(flows[k][i], k, owner[k], born, outbound);
        }
      }
    }
    if InboxesOk(inbox, born, outbound) {
      forall c | c in inbox ensures InboxOk(inbox[c], c, born, outbound') {
        assert InboxOk(inbox[c], c, born, outbound);
        forall i | 0 <= i < |inbox[c]| ensures DeliveryOk(inbox[c][i], c, born, outbound') {
          assert DeliveryOk(inbox[c][i], c, born, outbound);
        }
      }
    }
  }

  lemma DropReaders(outbound: map<Key, Outbound>, outbound': map<Key, Outbound>, born: map<Key, Birth>,
                    owner: seq<Uuid>, reader: seq<NodePc>)
    requires MoreDropped(outbound, outbound') && ReadersOk(reader, owner, born, outbound)
    ensures ReadersOk(reader, owner, born, outbound')
  {
    forall k | 0 <= k < |reader| ensures NodePcOk(reader[k], k, owner[k], born, outbound') {
      assert NodePcOk(reader[k], k, owner[k], born, outbound);
    }
  }

  lemma SetReader(reader: seq<NodePc>, owner: seq<Uuid>, born: map<Key, Birth>, outbound: map<Key, Outbound>, k: nat,
                  pc: NodePc)
    requires ReadersOk(reader, owner, born, outbound) && k < |reader| && NodePcOk(pc, k, owner[k], born, outbound)
    ensures ReadersOk(reader[k := pc], owner, born, outbound)
  {
  }

  /** A held frame is dropped. */
  lemma DropConserved(outbound: map<Key, Outbound>, outbound': map<Key, Outbound>, born: map<Key, Birth>,
                      flows: seq<seq<Emitted>>, reader: seq<NodePc>, inbox: map<Uuid, seq<Delivery>>, k: nat,
                      pc: NodePc)
    requires Conserved(outbound, born, flows, reader, inbox) && MoreDropped(outbound, outbound') && k < |reader|
    requires forall key, i :: key in outbound && Held(reader[k], key, i) ==> i in outbound'[key].dropped
    ensures Conserved(outbound', born, flows, reader[k := pc], inbox)
  {
    forall key | key in outbound'
      ensures AllAccounted(key, outbound'[key], flows[born[key].socket], reader[k := pc][born[key].socket],
                           inbox[born[key].cid])
    {
      var m := born[key].socket;
      var pc' := reader[k := pc][m];
      forall i | 0 <= i < |outbound'[key].produced|
        ensures Accounted(key, i, outbound'[key].dropped, flows[m], pc', inbox[born[key].cid])
      {
        assert Accounted(key, i, outbound[key].dropped, flows[m], reader[m], inbox[born[key].cid]);
      }
    }
  }

  lemma LoseUpOk(flows: seq<seq<Emitted>>, owner: seq<Uuid>, born: map<Key, Birth>, outbound: map<Key, Outbound>,
                 k: nat, m: nat)
    requires UpOk(flows, owner, born, outbound) && k < |flows| && m < |flows[k]|
    ensures UpOk(flows[k := flows[k][..m] + flows[k][m + 1..]], owner, born, outbound)
  {
    var flow := flows[k];
    var flow' := flow[..m] + flow[m + 1..];
    assert FlowOk(flow, k, owner[k], born, outbound);
    forall i | 0 <= i < |flow'| ensures flow'[i] == flow[if i < m then i else i + 1] {
    }
    assert FlowOk(flow', k, owner[k], born, outbound);
  }

  lemma LoseInFlow(flow: seq<Emitted>, m: nat, sid: nat, index: nat)
    requires m < |flow| && InFlow(flow, sid, index)
    ensures flow[m].source == Session(sid, index) || InFlow(flow[..m] + flow[m + 1..], sid, index)
  {
    var j :| 0 <= j < |flow| && flow[j].source == Session(sid, index);
    var flow' := flow[..m] + flow[m + 1..];
    if j < m {
      assert flow'[j] == flow[j];
    } else if j > m {
      assert flow'[j - 1] == flow[j];
    }
  }

  lemma LoseConserved(outbound: map<Key, Outbound>, born: map<Key, Birth>, flows: seq<seq<Emitted>>,
                      reader: seq<NodePc>, inbox: map<Uuid, seq<Delivery>>, k: nat, m: nat, node: Uuid)
    requires Conserved(outbound, born, flows, reader, inbox) && k < |flows| && m < |flows[k]|
    requires EmittedOk(flows[k][m], k, node, born, outbound)
    requires forall key :: key in born && born[key].socket == k ==> key.node == node
    ensures Conserved(LoseFrom(outbound, node, flows[k][m].source), born,
                      flows[k := flows[k][..m] + flows[k][m + 1..]], reader, inbox)
  {
    var outbound' := LoseFrom(outbound, node, flows[k][m].source);
    var flow' := flows[k][..m] + flows[k][m + 1..];
    forall key | key in outbound' && born[key].socket == k
      ensures AllAccounted(key, outbound'[key], flow', reader[k], inbox[born[key].cid])
    {
      forall i | 0 <= i < |outbound'[key].produced|
        ensures Accounted(key, i, outbound'[key].dropped, flow', reader[k], inbox[born[key].cid])
      {
        assert Accounted(key, i, outbound[key].dropped, flows[k], reader[k], inbox[born[key].cid]);
        if InFlow(flows[k], key.sid, i) {
          LoseInFlow(flows[k], m, key.sid, i);
        }
      }
    }
  }

  // --- a session produces one more frame -----------------------------------------------------

  /** `ob` after producing `frame`. */
  function Produce(ob: Outbound, frame: UpFrame, lost: bool): Outbound {
    ob.(produced := ob.produced + [frame], dropped := if lost then ob.dropped + {|ob.produced|} else ob.dropped)
  }

  lemma ProduceOk(b: Birth, sid: nat, phase: Phase, ob: Outbound, frame: UpFrame, next: Phase, lost: bool)
    requires ProducedOk(b, sid, phase, ob) && MayEmit(b, sid, phase, frame, next)
    ensures ProducedOk(b, sid, next, Produce(ob, frame, lost))
  {
  }

  lemma EmitOutbound(outbound: map<Key, Outbound>, born: map<Key, Birth>, phase: map<Key, Phase>, key: Key,
                     frame: UpFrame, next: Phase, lost: bool)
    requires OutboundOk(outbound, born, phase) && key in outbound && key in born && key in phase
    requires MayEmit(born[key], key.sid, phase[key], frame, next)
    ensures OutboundOk(outbound[key := Produce(outbound[key], frame, lost)], born, phase[key := next])
  {
    ProduceOk(born[key], key.sid, phase[key], outbound[key], frame, next, lost);
  }

  lemma EmitUp(flows: seq<seq<Emitted>>, owner: seq<Uuid>, born: map<Key, Birth>, outbound: map<Key, Outbound>,
               key: Key, frame: UpFrame, lost: bool)
    requires UpOk(flows, owner, born, outbound) && key in born && key in outbound && born[key].socket < |owner|
    requires owner[born[key].socket] == key.node && outbound[key].heard <= |outbound[key].produced|
    ensures var k := born[key].socket;
            var outbound' := outbound[key := Produce(outbound[key], frame, lost)];
            var x := Emitted(Session(key.sid, |outbound[key].produced|), frame);
            UpOk(flows, owner, born, outbound') && UpOk(flows[k := flows[k] + [x]], owner, born, outbound')
  {
    var outbound' := outbound[key := Produce(outbound[key], frame, lost)];
    forall j | 0 <= j < |flows| ensures FlowOk(flows[j], j, owner[j], born, outbound') {
      assert FlowOk(flows[j], j, owner[j], born, outbound);
      forall i | 0 <= i < |flows[j]| ensures EmittedOk(flows[j][i], j, owner[j], born, outbound') {
        assert EmittedOk(flows[j][i], j, owner[j], born, outbound);
      }
    }
    var k := born[key].socket;
    var x := Emitted(Session(key.sid, |outbound[key].produced|), frame);
    var flow := flows[k];
    forall i | 0 <= i < |flow| && SameSession(flow[i].source, x.source) ensures flow[i].source.index < x.source.index {
      assert EmittedOk(flow[i], k, owner[k], born, outbound);
    }
    assert FlowOk(flow + [x], k, owner[k], born, outbound');
  }

  lemma EmitReaders(reader: seq<NodePc>, owner: seq<Uuid>, born: map<Key, Birth>, outbound: map<Key, Outbound>,
                    key: Key, frame: UpFrame, lost: bool)
    requires ReadersOk(reader, owner, born, outbound) && key in outbound
    ensures ReadersOk(reader, owner, born, outbound[key := Produce(outbound[key], frame, lost)])
  {
    var outbound' := outbound[key := Produce(outbound[key], frame, lost)];
    forall k | 0 <= k < |reader| ensures NodePcOk(reader[k], k, owner[k], born, outbound') {
      assert NodePcOk(reader[k], k, owner[k], born, outbound);
    }
  }

  lemma EmitInboxes(inbox: map<Uuid, seq<Delivery>>, born: map<Key, Birth>, outbound: map<Key, Outbound>, key: Key,
                    frame: UpFrame, lost: bool)
    requires InboxesOk(inbox, born, outbound) && key in outbound
    ensures InboxesOk(inbox, born, outbound[key := Produce(outbound[key], frame, lost)])
  {
    var outbound' := outbound[key := Produce(outbound[key], frame, lost)];
    forall c | c in inbox ensures InboxOk(inbox[c], c, born, outbound') {
      assert InboxOk(inbox[c], c, born, outbound);
      forall i | 0 <= i < |inbox[c]| ensures DeliveryOk(inbox[c][i], c, born, outbound') {
        assert DeliveryOk(inbox[c][i], c, born, outbound);
      }
    }
  }

  lemma GrowFlow(flow: seq<Emitted>, x: Emitted, sid: nat, index: nat)
    ensures InFlow(flow, sid, index) ==> InFlow(flow + [x], sid, index)
    ensures x.source == Session(sid, index) ==> InFlow(flow + [x], sid, index)
  {
    if InFlow(flow, sid, index) {
      var j :| 0 <= j < |flow| && flow[j].source == Session(sid, index);
      assert (flow + [x])[j] == flow[j];
    }
    assert (flow + [x])[|flow|] == x;
  }

  lemma PushConserved(outbound: map<Key, Outbound>, born: map<Key, Birth>, flows: seq<seq<Emitted>>,
                      reader: seq<NodePc>, inbox: map<Uuid, seq<Delivery>>, k: nat, x: Emitted)
    requires Conserved(outbound, born, flows, reader, inbox) && k < |flows|
    ensures Conserved(outbound, born, flows[k := flows[k] + [x]], reader, inbox)
  {
    forall key | key in outbound && born[key].socket == k
      ensures AllAccounted(key, outbound[key], flows[k] + [x], reader[k], inbox[born[key].cid])
    {
      forall i | 0 <= i < |outbound[key].produced|
        ensures Accounted(key, i, outbound[key].dropped, flows[k] + [x], reader[k], inbox[born[key].cid])
      {
        assert Accounted(key, i, outbound[key].dropped, flows[k], reader[k], inbox[born[key].cid]);
        GrowFlow(flows[k], x, key.sid, i);
      }
    }
  }

  lemma EmitConserved(outbound: map<Key, Outbound>, born: map<Key, Birth>, flows: seq<seq<Emitted>>,
                      reader: seq<NodePc>, inbox: map<Uuid, seq<Delivery>>, key: Key, frame: UpFrame, lost: bool)
    requires Conserved(outbound, born, flows, reader, inbox) && key in outbound && key in born
    requires born[key].socket < |flows| && born[key].socket < |reader| && born[key].cid in inbox
    requires !lost ==> InFlow(flows[born[key].socket], key.sid, |outbound[key].produced|)
    ensures Conserved(outbound[key := Produce(outbound[key], frame, lost)], born, flows, reader, inbox)
  {
    var m := born[key].socket;
    var ob' := Produce(outbound[key], frame, lost);
    forall i | 0 <= i < |ob'.produced|
      ensures Accounted(key, i, ob'.dropped, flows[m], reader[m], inbox[born[key].cid])
    {
      if i < |outbound[key].produced| {
        assert Accounted(key, i, outbound[key].dropped, flows[m], reader[m], inbox[born[key].cid]);
      }
    }
    assert AllAccounted(key, ob', flows[m], reader[m], inbox[born[key].cid]);
  }

  // --- sessions, sockets and connections come into being ----------------------------------------

  lemma SpawnKeeps(born: map<Key, Birth>, born': map<Key, Birth>, outbound: map<Key, Outbound>,
                   phase: map<Key, Phase>, flows: seq<seq<Emitted>>, owner: seq<Uuid>, key: Key, b: Birth)
    requires key !in born && born' == born[key := b] && key !in outbound
    requires OutboundOk(outbound, born, phase) && UpOk(flows, owner, born, outbound)
    ensures OutboundOk(outbound[key := Outbound([], {}, 0)], born', phase[key := Starting])
    ensures UpOk(flows, owner, born', outbound[key := Outbound([], {}, 0)])
  {
    var outbound' := outbound[key := Outbound([], {}, 0)];
    forall j | 0 <= j < |flows| ensures FlowOk(flows[j], j, owner[j], born', outbound') {
      assert FlowOk(flows[j], j, owner[j], born, outbound);
      forall i | 0 <= i < |flows[j]| ensures EmittedOk(flows[j][i], j, owner[j], born', outbound') {
        assert EmittedOk(flows[j][i], j, owner[j], born, outbound);
      }
    }
  }

  lemma SpawnReaders(born: map<Key, Birth>, born': map<Key, Birth>, outbound: map<Key, Outbound>, reader: seq<NodePc>,
                     owner: seq<Uuid>, key: Key, b: Birth)
    requires key !in born && born' == born[key := b] && ReadersOk(reader, owner, born, outbound)
    ensures ReadersOk(reader, owner, born', outbound[key := Outbound([], {}, 0)])
  {
    var outbound' := outbound[key := Outbound([], {}, 0)];
    forall k | 0 <= k < |reader| ensures NodePcOk(reader[k], k, owner[k], born', outbound') {
      assert NodePcOk(reader[k], k, owner[k], born, outbound);
    }
  }

  lemma SpawnInboxes(born: map<Key, Birth>, born': map<Key, Birth>, outbound: map<Key, Outbound>,
                     inbox: map<Uuid, seq<Delivery>>, key: Key, b: Birth)
    requires key !in born && born' == born[key := b] && InboxesOk(inbox, born, outbound)
    ensures InboxesOk(inbox, born', outbound[key := Outbound([], {}, 0)])
  {
    var outbound' := outbound[key := Outbound([], {}, 0)];
    forall c | c in inbox ensures InboxOk(inbox[c], c, born', outbound') {
      assert InboxOk(inbox[c], c, born, outbound);
      forall i | 0 <= i < |inbox[c]| ensures DeliveryOk(inbox[c][i], c, born', outbound') {
        assert DeliveryOk(inbox[c][i], c, born, outbound);
      }
    }
  }

  lemma SpawnConserved(born: map<Key, Birth>, born': map<Key, Birth>, outbound: map<Key, Outbound>,
                       flows: seq<seq<Emitted>>, reader: seq<NodePc>, inbox: map<Uuid, seq<Delivery>>, key: Key,
                       b: Birth)
    requires key !in born && born' == born[key := b] && Conserved(outbound, born, flows, reader, inbox)
    requires b.socket < |flows| && b.socket < |reader| && b.cid in inbox
    ensures Conserved(outbound[key := Outbound([], {}, 0)], born', flows, reader, inbox)
  {
  }

  lemma PushReaderFrame(flows: seq<seq<Emitted>>, owner: seq<Uuid>, born: map<Key, Birth>,
                        outbound: map<Key, Outbound>, k: nat, cid: Uuid, body: Bytes)
    requires UpOk(flows, owner, born, outbound) && k < |flows|
    ensures UpOk(flows[k := flows[k] + [Emitted(Reader, ToConnection(cid, body))]], owner, born, outbound)
  {
    var x := Emitted(Reader, ToConnection(cid, body));
    assert FlowOk(flows[k], k, owner[k], born, outbound);
    assert FlowOk(flows[k] + [x], k, owner[k], born, outbound);
  }

  lemma GrowSockets(flows: seq<seq<Emitted>>, owner: seq<Uuid>, born: map<Key, Birth>, outbound: map<Key, Outbound>,
                    reader: seq<NodePc>, inbox: map<Uuid, seq<Delivery>>, n: Uuid)
    ensures UpOk(flows, owner, born, outbound) ==> UpOk(flows + [[]], owner + [n], born, outbound)
    ensures ReadersOk(reader, owner, born, outbound) ==> ReadersOk(reader + [Serving], owner + [n], born, outbound)
    ensures FreshOk(reader, inbox) ==> FreshOk(reader + [Serving], inbox)
    ensures Conserved(outbound, born, flows, reader, inbox) ==>
      Conserved(outbound, born, flows + [[]], reader + [Serving], inbox)
  {
  }

  lemma GrowInboxes(inbox: map<Uuid, seq<Delivery>>, born: map<Key, Birth>, outbound: map<Key, Outbound>,
                    flows: seq<seq<Emitted>>, reader: seq<NodePc>, c: Uuid)
    requires c !in inbox
    ensures InboxesOk(inbox, born, outbound) ==> InboxesOk(inbox[c := []], born, outbound)
    ensures FreshOk(reader, inbox) ==> FreshOk(reader, inbox[c := []])
    ensures Conserved(outbound, born, flows, reader, inbox) ==> Conserved(outbound, born, flows, reader, inbox[c := []])
  {
  }
}
