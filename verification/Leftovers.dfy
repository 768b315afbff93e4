/** What an agent still holds of a connection after handling its disconnect: the SFTP
    sessions of one connection, its entries in the transfer tables, and the periodic sweep.
    Times are in seconds. */
module Leftovers {
  import opened Protocol

  const TIMEOUT: nat := 900
  const SWEEP_INTERVAL: nat := 300

  datatype Kind = Uploads | Downloads

  datatype Command = Start(kind: Kind) | Touch(id: nat) | Other

  /** A session's loop: its queue, the command in progress, whether its stop signal was
      sent, and how many commands it completed since. */
  datatype Session = Session(queue: seq<Command>, busy: Option<Command>, stopped: bool, completed: nat)

  /** A transfer, the session that started it, and whether it was stored after that
      session's stop signal. */
  datatype Entry = Entry(kind: Kind, owner: nat, late: bool, lastUpdated: nat)

  /** The reader's progress through the disconnect: stop the sessions one by one, collect
      and remove the uploads, collect and remove the downloads. */
  datatype Stage = Running | Stopping | Closing(kind: Kind, left: set<nat>) | Closed

  datatype State = State(
    sessions: map<nat, Session>, entries: map<nat, Entry>, nextSid: nat, nextId: nat,
    stage: Stage, now: nat, lastSweep: nat)

  datatype Event =
    | Join                                // a session's handle is stored
    | Enqueue(sid: nat, cmd: Command)     // the reader forwards a command
    | TakeCommand(sid: nat)
    | Complete(sid: nat)
    | End(sid: nat)                       // the loop saw its stop signal, or failed
    | Disconnect
    | Stop(sid: nat)
    | AllStopped
    | RemoveCollected(id: nat)
    | NextKind
    | Drop(id: nat)                       // a transfer finishes, fails or is cancelled
    | Sweep
    | Wait(seconds: nat)

  /** The reader works through its frames one by one, a loop prefers its stop signal to the
      next command, and sweeps are at most `SWEEP_INTERVAL` apart. */
  predicate Enabled(s: State, e: Event) {
    match e
    case Join => s.stage == Running
    case Enqueue(sid, _) => s.stage == Running && sid in s.sessions
    case TakeCommand(sid) =>
      sid in s.sessions && s.sessions[sid].busy == None && s.sessions[sid].queue != [] && !s.sessions[sid].stopped
    case Complete(sid) => sid in s.sessions && s.sessions[sid].busy.Some?
    case End(sid) => sid in s.sessions && s.sessions[sid].busy == None
    case Disconnect => s.stage == Running
    case Stop(sid) => s.stage == Stopping && sid in s.sessions
    case AllStopped => s.stage == Stopping && forall sid :: sid in s.sessions ==> s.sessions[sid].stopped
    case RemoveCollected(id) => s.stage.Closing? && id in s.stage.left
    case NextKind => s.stage.Closing? && s.stage.left == {}
    case Drop(id) => true
    case Sweep => true
    case Wait(seconds) => s.now + seconds <= s.lastSweep + SWEEP_INTERVAL
  }

  function OfKind(entries: map<nat, Entry>, kind: Kind): set<nat> {
    set id | id in entries && entries[id].kind == kind
  }

  function Swept(entries: map<nat, Entry>, now: nat): map<nat, Entry> {
    map id | id in entries && !(now - entries[id].lastUpdated > TIMEOUT) :: entries[id]
  }

  function Apply(s: State, e: Event): State
    requires Enabled(s, e)
  {
    match e
    case Join => s.(sessions := s.sessions[s.nextSid := Session.Session([], None, false, 0)], nextSid := s.nextSid + 1)
    case Enqueue(sid, cmd) =>
      s.(sessions := s.sessions[sid := s.sessions[sid].(queue := s.sessions[sid].queue + [cmd])])
    case TakeCommand(sid) =>
      var session := s.sessions[sid];
      s.(sessions := s.sessions[sid := session.(queue := session.queue[1..], busy := Some(session.queue[0]))])
    case Complete(sid) =>
      var session := s.sessions[sid];
      Effect(s, sid, session.busy.value).(sessions := s.sessions[sid :=
        session.(busy := None, completed := if session.stopped then session.completed + 1 else 0)])
    case End(sid) => s.(sessions := s.sessions - {sid})
    case Disconnect => s.(stage := Stopping)
    case Stop(sid) => s.(sessions := s.sessions[sid := s.sessions[sid].(stopped := true)])
    case AllStopped => s.(stage := Closing(Uploads, OfKind(s.entries, Uploads)))
    case RemoveCollected(id) => s.(entries := s.entries - {id}, stage := Closing(s.stage.kind, s.stage.left - {id}))
    case NextKind =>
      if s.stage.kind == Uploads then s.(stage := Closing(Downloads, OfKind(s.entries, Downloads)))
      else s.(stage := Closed)
    case Drop(id) => s.(entries := s.entries - {id})
    case Sweep => s.(entries := Swept(s.entries, s.now), lastSweep := s.now)
    case Wait(seconds) => s.(now := s.now + seconds)
  }

  /** A transfer start stores an entry; a chunk refreshes one of the connection's entries. */
  function Effect(s: State, sid: nat, cmd: Command): State
    requires sid in s.sessions
  {
    match cmd
    case Start(kind) =>
      s.(entries := s.entries[s.nextId := Entry(kind, sid, s.sessions[sid].stopped, s.now)], nextId := s.nextId + 1)
    case Touch(id) =>
      if id in s.entries then s.(entries := s.entries[id := s.entries[id].(lastUpdated := s.now)]) else s
    case Other => s
  }

  const START: State := State(map[], map[], 0, 0, Running, 0, 0)

  function Run(s: State, es: seq<Event>): State
    requires Legal(s, es)
    decreases |es|, 1
  {
    if es == [] then s else Apply(Run(s, es[..|es| - 1]), es[|es| - 1])
  }

  predicate Legal(s: State, es: seq<Event>)
    decreases |es|, 0
  {
    es == [] || (Legal(s, es[..|es| - 1]) && Enabled(Run(s, es[..|es| - 1]), es[|es| - 1]))
  }

  // --- the invariant -------------------------------------------------------------------------

  /** After its stop signal a session completes at most the command in progress. */
  ghost predicate SessionsOk(sessions: map<nat, Session>, nextSid: nat) {
    forall sid :: sid in sessions ==>
      && sid < nextSid
      && sessions[sid].completed <= (if sessions[sid].stopped && sessions[sid].busy == None then 1 else 0)
  }

  /** A session stores at most one transfer after its stop signal, as its last command. */
  ghost predicate LateOk(sessions: map<nat, Session>, entries: map<nat, Entry>, nextSid: nat) {
    && (forall id :: id in entries ==> entries[id].owner < nextSid)
    && (forall id :: id in entries && entries[id].late && entries[id].owner in sessions ==>
          sessions[entries[id].owner].stopped && sessions[entries[id].owner].busy == None)
    && (forall a, b :: (a in entries && b in entries && entries[a].late && entries[b].late
                        && entries[a].owner == entries[b].owner) ==> a == b)
  }

  /** What is not late has been collected, once its table's turn has come. */
  ghost predicate StageOk(s: State) {
    && (s.stage.Closing? || s.stage.Closed? ==> forall sid :: sid in s.sessions ==> s.sessions[sid].stopped)
    && (s.stage.Closing? ==>
          (forall id :: id in s.entries && !s.entries[id].late && s.entries[id].kind == s.stage.kind ==>
           id in s.stage.left)
          && (s.stage.kind == Downloads ==> forall id :: id in s.entries && s.entries[id].kind == Uploads ==>
              s.entries[id].late))
    && (s.stage.Closed? ==> forall id :: id in s.entries ==> s.entries[id].late)
  }

  ghost predicate TimeOk(entries: map<nat, Entry>, nextId: nat, now: nat, lastSweep: nat) {
    && lastSweep <= now <= lastSweep + SWEEP_INTERVAL
    && forall id :: id in entries ==>
      id < nextId && entries[id].lastUpdated <= now && lastSweep <= entries[id].lastUpdated + TIMEOUT
  }

  ghost predicate Inv(s: State) {
    && SessionsOk(s.sessions, s.nextSid)
    && LateOk(s.sessions, s.entries, s.nextSid)
    && StageOk(s)
    && TimeOk(s.entries, s.nextId, s.now, s.lastSweep)
  }

  lemma LateStart(sessions: map<nat, Session>, entries: map<nat, Entry>, nextSid: nat, sid: nat, id: nat,
                  entry: Entry, session: Session)
    requires LateOk(sessions, entries, nextSid) && id !in entries
    requires sid in sessions && sid < nextSid && sessions[sid].busy.Some?
    requires entry.owner == sid && entry.late == sessions[sid].stopped
    requires session.busy == None && session.stopped == sessions[sid].stopped
    ensures LateOk(sessions[sid := session], entries[id := entry], nextSid)
  {
    forall a | a in entries && entries[a].late ensures entries[a].owner != sid {
    }
  }

  lemma LateTouch(sessions: map<nat, Session>, entries: map<nat, Entry>, nextSid: nat, sid: nat, session: Session,
                  entries': map<nat, Entry>)
    requires LateOk(sessions, entries, nextSid)
    requires sid in sessions && session.busy == None && session.stopped == sessions[sid].stopped
    requires entries'.Keys == entries.Keys
    requires forall id :: id in entries ==>
      entries'[id].owner == entries[id].owner && entries'[id].late == entries[id].late
    ensures LateOk(sessions[sid := session], entries', nextSid)
  {
  }

  lemma CompleteKeeps(s: State, sid: nat)
    requires Inv(s) && Enabled(s, Complete(sid))
    ensures Inv(Apply(s, Complete(sid)))
  {
    hide LateOk;
    var s' := Apply(s, Complete(sid));
    var session := s'.sessions[sid];
    match s.sessions[sid].busy.value
    case Start(kind) =>
      LateStart(s.sessions, s.entries, s.nextSid, sid, s.nextId, s'.entries[s.nextId], session);
    case Touch(id) =>
      LateTouch(s.sessions, s.entries, s.nextSid, sid, session, s'.entries);
    case Other =>
      LateTouch(s.sessions, s.entries, s.nextSid, sid, session, s'.entries);
  }

  lemma SessionStepKeeps(s: State, e: Event)
    requires Inv(s) && Enabled(s, e)
    requires e.Join? || e.Enqueue? || e.TakeCommand? || e.End? || e.Stop?
    ensures Inv(Apply(s, e))
  {
  }

  lemma TableStepKeeps(s: State, e: Event)
    requires Inv(s) && Enabled(s, e)
    requires e.Disconnect? || e.AllStopped? || e.RemoveCollected? || e.NextKind? || e.Drop? || e.Sweep? || e.Wait?
    ensures Inv(Apply(s, e))
  {
  }

  lemma StepKeeps(s: State, e: Event)
    requires Inv(s) && Enabled(s, e)
    ensures Inv(Apply(s, e))
  {
    hide Inv, Apply;
    if e.Complete? {
      CompleteKeeps(s, e.sid);
    } else if e.Join? || e.Enqueue? || e.TakeCommand? || e.End? || e.Stop? {
      SessionStepKeeps(s, e);
    } else {
      TableStepKeeps(s, e);
    }
  }

  lemma {:induction false} RunKeeps(es: seq<Event>)
    requires Legal(START, es)
    ensures Inv(Run(START, es))
  {
    if es != [] {
      RunKeeps(es[..|es| - 1]);
      StepKeeps(Run(START, es[..|es| - 1]), es[|es| - 1]);
    }
  }

  // --- theorems --------------------------------------------------------------------------------

  function OwnedBy(entries: map<nat, Entry>, sid: nat): set<nat> {
    set id | id in entries && entries[id].owner == sid
  }

  /** Once the disconnect has been handled, and ever after, at most one transfer entry per
      session is left, and none of a session that is still at work; a session completes at
      most one command after its stop signal. */
  lemma AtMostOneLeftover(es: seq<Event>, sid: nat)
    requires Legal(START, es) && Run(START, es).stage == Closed
    ensures |OwnedBy(Run(START, es).entries, sid)| <= 1
    ensures sid in Run(START, es).sessions ==>
      var session := Run(START, es).sessions[sid];
      && session.stopped && session.completed <= 1
      && (session.busy.Some? ==> session.completed == 0 && OwnedBy(Run(START, es).entries, sid) == {})
  {
    RunKeeps(es);
    var s := Run(START, es);
    var owned := OwnedBy(s.entries, sid);
    if owned != {} {
      var a :| a in owned;
      assert owned == {a};
    }
  }

  /** No entry is ever more than 20 minutes past its last update. */
  lemma GoneWithin20Minutes(es: seq<Event>, id: nat)
    requires Legal(START, es) && id in Run(START, es).entries
    ensures Run(START, es).now <= Run(START, es).entries[id].lastUpdated + TIMEOUT + SWEEP_INTERVAL
  {
    RunKeeps(es);
  }

  /** Nothing refreshes a connection's entries once its sessions have ended. */
  ghost predicate Quiet(s: State) {
    s.stage == Closed && s.sessions == map[]
  }

  lemma {:induction false} LeftoversVanish(es: seq<Event>, more: seq<Event>)
    requires Legal(START, es) && Quiet(Run(START, es)) && Legal(Run(START, es), more)
    ensures Quiet(Run(Run(START, es), more))
    ensures forall id :: id in Run(Run(START, es), more).entries ==>
      id in Run(START, es).entries && Run(Run(START, es), more).entries[id] == Run(START, es).entries[id]
    ensures Run(Run(START, es), more).now > Run(START, es).now + TIMEOUT + SWEEP_INTERVAL ==>
      Run(Run(START, es), more).entries == map[]
  {
    RunKeeps(es);
    QuietRun(Run(START, es), more);
  }

  lemma {:induction false} QuietRun(s: State, more: seq<Event>)
    requires Inv(s) && Quiet(s) && Legal(s, more)
    ensures Inv(Run(s, more)) && Quiet(Run(s, more)) && Run(s, more).now >= s.now
    ensures forall id :: id in Run(s, more).entries ==> id in s.entries && Run(s, more).entries[id] == s.entries[id]
  {
    if more != [] {
      QuietRun(s, more[..|more| - 1]);
      StepKeeps(Run(s, more[..|more| - 1]), more[|more| - 1]);
    }
  }
}
