/** Concrete runs: the model does move, and some natural claims about it are false. */
module RelayWitness {
  import opened Protocol
  import opened Pipes
  import opened RelayModel
  import opened RelayInvariants
  import opened RelayTheorems

  lemma {:induction false} RunSnoc(s: State, es: seq<Event>, t: State, e: Event)
    requires Run(s, es, t) && Shape(t) && Enabled(t, e)
    ensures Run(s, es + [e], Apply(t, e))
    decreases |es|
  {
    hide Shape, Enabled, Apply;
    if es == [] {
      assert [] + [e] == [e];
      assert [e][1..] == [];
    } else {
      assert (es + [e])[1..] == es[1..] + [e];
      RunSnoc(Apply(s, es[0]), es[1..], t, e);
    }
  }

  /** A single frame on a single pipe. */
  lemma OnePipe<T>(x: T)
    ensures [Empty<T>()][0 := Empty<T>().Push(x)] == [Pipe([], [x])]
    ensures [Pipe([], [x])][0 := Pipe([], [x]).Move()] == [Pipe([x], [])]
    ensures [Pipe([x], [])][0 := Pipe([x], []).Pop()] == [Empty<T>()]
  {
    assert Empty<T>().Push(x) == Pipe([], [x]) by { assert [] + [x] == [x]; }
    assert Pipe([], [x]).Move() == Pipe([x], []) by { assert [] + [x] == [x]; }
    assert Pipe([x], []).Pop() == Empty<T>();
  }

  /** The states of a run in which connection `c` opens an SFTP session on node `n`. */
  function Registered(n: Uuid): State {
    Init().(nodes := map[n := 0], owner := [n], reader := [Serving], down := [Empty()], up := [Empty()],
            agent := [AgentIdle], handles := [map[]], quiet := [{}])
  }

  function Connected(c: Uuid, n: Uuid): State {
    Registered(n).(web := map[c := WebIdle], inbox := map[c := []], connections := {c})
  }

  function Asked(c: Uuid, n: Uuid): State {
    Connected(c, n).(down := [Pipe([], [Sent(c, OpenTunnel(c, Sftp, true))])])
  }

  function Spawned(c: Uuid, n: Uuid): State {
    var key := Key(n, 1);
    Connected(c, n).(counter := map[n := 2], agent := [Inserting(c, 1, Sftp)], born := map[key := Birth(Sftp, c, c, 0)],
                     phase := map[key := Starting], inbound := map[key := Inbound([], [], [], false)],
                     outbound := map[key := Outbound([], {}, 0)])
  }

  function Announced(c: Uuid, n: Uuid): State {
    var key := Key(n, 1);
    Spawned(c, n).(phase := map[key := Live], outbound := map[key := Outbound([TunnelOpened(c, 1)], {}, 0)],
                   up := [Pipe([], [Emitted(Session(1, 0), TunnelOpened(c, 1))])])
  }

  function Opened(c: Uuid, n: Uuid): State {
    var key := Key(n, 1);
    Announced(c, n).(outbound := map[key := Outbound([TunnelOpened(c, 1)], {}, 1)], up := [Empty()],
                     routes := map[key := (c, n)],
                     reader := [Notifying(c, FromSession(n, 1, 0, TunnelOpened(c, 1)))])
  }

  function OpeningRun(c: Uuid, n: Uuid): seq<Event> {
    [Register(n), Accept(c), WebOpen(c, n, Sftp, true), WebPush(c, true), MoveDown(0), AgentRead(0, [], true),
     Emit(Key(n, 1), TunnelOpened(c, 1), Live, false), MoveUp(0), ServeFrame(0)]
  }

  /** One more event of the run. */
  lemma Onward(es: seq<Event>, i: nat, s: State, e: Event, t: State)
    requires i < |es| && es[i] == e && Run(Init(), es[..i], s) && Shape(s) && Enabled(s, e) && Apply(s, e) == t
    ensures Run(Init(), es[..i + 1], t)
  {
    hide Shape, Enabled, Apply, Run;
    RunSnoc(Init(), es[..i], s, e);
    assert es[..i + 1] == es[..i] + [es[i]];
  }

  lemma ToConnected(c: Uuid, n: Uuid)
    ensures Run(Init(), OpeningRun(c, n)[..2], Connected(c, n))
  {
    var es := OpeningRun(c, n);
    assert es[..0] == [];
    Onward(es, 0, Init(), Register(n), Registered(n));
    Onward(es, 1, Registered(n), Accept(c), Connected(c, n));
  }

  lemma ToAsked(c: Uuid, n: Uuid)
    requires Run(Init(), OpeningRun(c, n)[..2], Connected(c, n))
    ensures Run(Init(), OpeningRun(c, n)[..4], Asked(c, n))
  {
    hide Run;
    var es := OpeningRun(c, n);
    var s := DoWebOpen(Connected(c, n), c, n, Sftp, true);
    Onward(es, 2, Connected(c, n), WebOpen(c, n, Sftp, true), s);
    OnePipe(Sent(c, OpenTunnel(c, Sftp, true)));
    assert DoWebPush(s, c, true).web == Asked(c, n).web;
    Onward(es, 3, s, WebPush(c, true), Asked(c, n));
  }

  lemma ToMoved(c: Uuid, n: Uuid)
    requires Run(Init(), OpeningRun(c, n)[..4], Asked(c, n))
    ensures Run(Init(), OpeningRun(c, n)[..5],
                Connected(c, n).(down := [Pipe([Sent(c, OpenTunnel(c, Sftp, true))], [])]))
  {
    hide Run;
    OnePipe(Sent(c, OpenTunnel(c, Sftp, true)));
    Onward(OpeningRun(c, n), 4, Asked(c, n), MoveDown(0),
           Connected(c, n).(down := [Pipe([Sent(c, OpenTunnel(c, Sftp, true))], [])]));
  }

  lemma ToSpawned(c: Uuid, n: Uuid)
    requires Run(Init(), OpeningRun(c, n)[..5],
                 Connected(c, n).(down := [Pipe([Sent(c, OpenTunnel(c, Sftp, true))], [])]))
    ensures Run(Init(), OpeningRun(c, n)[..6], Spawned(c, n))
  {
    hide Run;
    var s := Connected(c, n).(down := [Pipe([Sent(c, OpenTunnel(c, Sftp, true))], [])]);
    OnePipe(Sent(c, OpenTunnel(c, Sftp, true)));
    Onward(OpeningRun(c, n), 5, s, AgentRead(0, [], true), Spawned(c, n));
  }

  lemma Announces(c: Uuid, n: Uuid)
    ensures Shape(Spawned(c, n)) && Enabled(Spawned(c, n), Emit(Key(n, 1), TunnelOpened(c, 1), Live, false))
    ensures DoEmit(Spawned(c, n), Key(n, 1), TunnelOpened(c, 1), Live, false) == Announced(c, n)
  {
    OnePipe(Emitted(Session(1, 0), TunnelOpened(c, 1)));
    var t := DoEmit(Spawned(c, n), Key(n, 1), TunnelOpened(c, 1), Live, false);
    assert [] + [TunnelOpened(c, 1)] == [TunnelOpened(c, 1)];
    assert t.outbound == Announced(c, n).outbound && t.phase == Announced(c, n).phase;
  }

  lemma ToAnnounced(c: Uuid, n: Uuid)
    requires Run(Init(), OpeningRun(c, n)[..6], Spawned(c, n))
    ensures Run(Init(), OpeningRun(c, n)[..7], Announced(c, n))
  {
    Announces(c, n);
    hide Run, Shape, Enabled, DoEmit, Spawned, Announced;
    Onward(OpeningRun(c, n), 6, Spawned(c, n), Emit(Key(n, 1), TunnelOpened(c, 1), Live, false), Announced(c, n));
  }

  /** The announcement has left the agent. */
  function OnWire(c: Uuid, n: Uuid): State {
    Announced(c, n).(up := [Pipe([Emitted(Session(1, 0), TunnelOpened(c, 1))], [])])
  }

  lemma Sends(c: Uuid, n: Uuid)
    ensures Shape(Announced(c, n)) && Enabled(Announced(c, n), MoveUp(0))
      && DoMoveUp(Announced(c, n), 0) == OnWire(c, n)
  {
    OnePipe(Emitted(Session(1, 0), TunnelOpened(c, 1)));
  }

  lemma ToSent(c: Uuid, n: Uuid)
    requires Run(Init(), OpeningRun(c, n)[..7], Announced(c, n))
    ensures Run(Init(), OpeningRun(c, n)[..8], OnWire(c, n))
  {
    Sends(c, n);
    hide Run, Shape, Enabled, DoMoveUp, Announced, OnWire;
    Onward(OpeningRun(c, n), 7, Announced(c, n), MoveUp(0), OnWire(c, n));
  }

  lemma MayServe(c: Uuid, n: Uuid)
    ensures Shape(OnWire(c, n)) && Enabled(OnWire(c, n), ServeFrame(0))
  {
  }

  lemma Hears(c: Uuid, n: Uuid)
    ensures HearIn(OnWire(c, n).outbound, n, Session(1, 0), false) == Opened(c, n).outbound
  {
  }

  lemma Routes(c: Uuid, n: Uuid)
    ensures Shape(OnWire(c, n)) && Enabled(OnWire(c, n), ServeFrame(0)) && DoServeFrame(OnWire(c, n), 0) == Opened(c, n)
  {
    hide Shape, Enabled, HearIn;
    MayServe(c, n);
    Hears(c, n);
    OnePipe(Emitted(Session(1, 0), TunnelOpened(c, 1)));
    var s, t := OnWire(c, n), Opened(c, n);
    assert s.reader[0 := t.reader[0]] == t.reader;
  }

  lemma ToOpened(c: Uuid, n: Uuid)
    requires Run(Init(), OpeningRun(c, n)[..8], OnWire(c, n))
    ensures Run(Init(), OpeningRun(c, n), Opened(c, n))
  {
    Routes(c, n);
    hide Run, Shape, Enabled, DoServeFrame, OnWire, Opened;
    Onward(OpeningRun(c, n), 8, OnWire(c, n), ServeFrame(0), Opened(c, n));
    assert OpeningRun(c, n)[..9] == OpeningRun(c, n);
  }

  /** A session's route appears while its agent has not stored the handle yet. */
  lemma OpenBeforeInsert(c: Uuid, n: Uuid)
    ensures Run(Init(), OpeningRun(c, n), Opened(c, n))
    ensures Key(n, 1) in Opened(c, n).routes && Key(n, 1) !in Opened(c, n).inserted
  {
    hide Run;
    ToConnected(c, n);
    ToAsked(c, n);
    ToMoved(c, n);
    ToSpawned(c, n);
    ToAnnounced(c, n);
    ToSent(c, n);
    ToOpened(c, n);
  }

  /** The stale sweep can leave a route to a node that is no longer registered. */
  lemma RouteMayOutliveNode(c: Uuid, n: Uuid) returns (es: seq<Event>, s: State)
    ensures Run(Init(), es, s) && Key(n, 1) in s.routes && n !in s.nodes
  {
    hide Run;
    OpenBeforeInsert(c, n);
    es, s := OpeningRun(c, n) + [StaleNode(n)], DoStaleNode(Opened(c, n), n);
    RunSnoc(Init(), OpeningRun(c, n), Opened(c, n), StaleNode(n));
  }

  /** The end of an older socket unregisters the newer one of the same node. */
  lemma OlderSocketUnregistersNewer(n: Uuid) returns (es: seq<Event>, s: State)
    ensures Run(Init(), es, s) && |s.reader| == 2 && s.reader[1].Serving? && n !in s.nodes
  {
    var s1 := DoRegister(Init(), n);
    var s2 := DoRegister(s1, n);
    s := DoServeEnd(s2, 0);
    RunSnoc(Init(), [], Init(), Register(n));
    RunSnoc(Init(), [] + [Register(n)], s1, Register(n));
    RunSnoc(Init(), [] + [Register(n)] + [Register(n)], s2, ServeEnd(0));
    es := [] + [Register(n)] + [Register(n)] + [ServeEnd(0)];
  }
}
