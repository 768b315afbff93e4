/** The agent's session table as its reader updates it, one frame at a time.
    (`RelayModel` interleaves the single operations of these handlers.) */
module AgentSessions {
  import opened Protocol

  type Handle = (Uuid, nat)

  function OfOthers(sessions: map<Handle, Kind>, cid: Uuid): map<Handle, Kind> {
    map h | h in sessions && h.0 != cid :: sessions[h]
  }

  class SessionTable {
    var nextSid: nat
    var sessions: map<Handle, Kind>
    var queues: map<nat, seq<Command>>  // what was pushed to each session's loop
    var finished: set<nat>              // sessions whose loop is gone
    var stopped: set<nat>               // sessions that were sent their stop signal
    ghost var creator: map<nat, Uuid>

    /** Every session ever started either has its handle in the table, under the connection
        that opened it, or was sent its stop signal, and not both. */
    ghost predicate Valid()
      reads this
    {
      && creator.Keys == queues.Keys
      && (forall sid :: sid in creator ==> sid < nextSid)
      && (forall h :: h in sessions ==> h.1 in creator && creator[h.1] == h.0)
      && (forall sid :: sid in creator ==> ((creator[sid], sid) in sessions <==> sid !in stopped))
    }

    constructor ()
      ensures Valid() && sessions == map[] && queues == map[] && stopped == {} && nextSid == 1
    {
      nextSid, sessions, queues, finished, stopped, creator := 1, map[], map[], {}, {}, map[];
    }

    /** A new session gets a new id and displaces no other handle. */
    method StartTunnel(cid: Uuid, kind: Kind) returns (sid: nat)
      requires Valid()
      modifies this
      ensures Valid() && sid == old(nextSid) && nextSid == sid + 1
      ensures (cid, sid) !in old(sessions) && sessions == old(sessions)[(cid, sid) := kind]
      ensures creator == old(creator)[sid := cid] && queues == old(queues)[sid := []]
      ensures stopped == old(stopped) - {sid} && finished == old(finished) - {sid}
    {
      sid := nextSid;
      nextSid := nextSid + 1;
      queues := queues[sid := []];
      finished, stopped := finished - {sid}, stopped - {sid};
      sessions := sessions[(cid, sid) := kind];
      creator := creator[sid := cid];
    }

    /** A command reaches a session exactly if the sender opened it, it has not been stopped,
        it is of the right kind, and its loop is still there. */
    method Forward(cid: Uuid, sid: nat, cmd: Command) returns (ok: bool)
      requires Valid()
      modifies this`queues
      ensures Valid()
      ensures ok <==>
        && sid in creator && creator[sid] == cid && sid !in stopped
        && Takes(sessions[(cid, sid)], cmd) && sid !in finished
      ensures queues == if ok then old(queues)[sid := old(queues)[sid] + [cmd]] else old(queues)
    {
      if (cid, sid) !in sessions || !Takes(sessions[(cid, sid)], cmd) || sid in finished {
        return false;
      }
      queues := queues[sid := queues[sid] + [cmd]];
      ok := true;
    }

    /** Remove the given handles one by one and send each session its stop signal. */
    method StopAll(handles: set<Handle>)
      requires Valid() && handles <= sessions.Keys
      modifies this`sessions, this`stopped
      ensures Valid() && sessions == old(sessions) - handles
      ensures forall sid ::
        sid in stopped <==> sid in old(stopped) || (sid in creator && (creator[sid], sid) in handles)
    {
      var left := handles;
      while left != {}
        invariant left <= handles && left <= sessions.Keys && Valid()
        invariant sessions == old(sessions) - (handles - left)
        invariant forall sid ::
          sid in stopped <==> sid in old(stopped) || (sid in creator && (creator[sid], sid) in handles - left)
        decreases left
      {
        var h :| h in left;
        left := left - {h};
        sessions := sessions - {h};
        stopped := stopped + {h.1};
        assert handles - left == (handles - (left + {h})) + {h};
      }
      assert handles - left == handles;
    }

    /** A disconnect stops exactly the sessions of the connection that were not stopped yet. */
    method CloseTunnelsForCid(cid: Uuid)
      requires Valid()
      modifies this`sessions, this`stopped
      ensures Valid() && sessions == OfOthers(old(sessions), cid)
      ensures forall sid :: sid in stopped <==> sid in old(stopped) || (sid in creator && creator[sid] == cid)
    {
      StopAll(set h | h in sessions && h.0 == cid);
      assert sessions == OfOthers(old(sessions), cid);
    }

    method CloseAllSessions()
      requires Valid()
      modifies this`sessions, this`stopped
      ensures Valid() && sessions == map[] && creator.Keys <= stopped
    {
      StopAll(sessions.Keys);
      assert sessions == map[];
    }
  }
}
