/** Heartbeats: the server's sweep of stale table entries and the agent's watchdog.
    Times are milliseconds of a clock that does not run backwards. */
module Liveness {
  import opened Protocol

  const CONNECTION_TIMEOUT: nat := 120_000
  const SWEEP_INTERVAL: nat := 30_000

  /** One of the server's tables, reduced to ids and last heartbeats. */
  class HeartbeatTable {
    var entries: map<Uuid, nat>

    constructor ()
      ensures entries == map[]
    {
      entries := map[];
    }

    method Touch(id: Uuid, now: nat)
      modifies this
      ensures entries == if id in old(entries) then old(entries)[id := now] else old(entries)
    {
      if id in entries {
        entries := entries[id := now];
      }
    }

    /** Keep the entries that are not stale, counting the others. */
    method CleanupDangling(now: nat) returns (removed: nat)
      modifies this
      ensures entries == Fresh(old(entries), now)
      ensures removed == |old(entries)| - |entries|
    {
      removed := 0;
      var left := entries.Keys;
      ghost var all := entries;
      while left != {}
        invariant left <= all.Keys && entries.Keys <= all.Keys
        invariant forall id :: id in all ==> (id in entries <==> id in left || !Stale(all[id], now))
        invariant forall id :: id in entries ==> entries[id] == all[id]
        invariant removed == |all| - |entries|
        decreases left
      {
        var id :| id in left;
        left := left - {id};
        if Stale(entries[id], now) {
          RemoveOne(entries, id);
          entries := entries - {id};
          removed := removed + 1;
        }
      }
      assert entries == Fresh(all, now);
    }
  }

  lemma RemoveOne(m: map<Uuid, nat>, id: Uuid)
    requires id in m
    ensures |m - {id}| == |m| - 1
  {
    assert (m - {id}).Keys == m.Keys - {id};
    assert |m| == |m.Keys| && |m - {id}| == |(m - {id}).Keys|;
  }

  /** A heartbeat from the future counts as fresh. */
  predicate Stale(heartbeat: nat, now: nat) {
    heartbeat <= now && now - heartbeat > CONNECTION_TIMEOUT
  }

  function Fresh(entries: map<Uuid, nat>, now: nat): map<Uuid, nat> {
    map id | id in entries && !Stale(entries[id], now) :: entries[id]
  }

  // --- runs of a table ---------------------------------------------------------------

  datatype Table = Table(now: nat, lastSweep: nat, entries: map<Uuid, nat>)

  datatype Event = Wait(ms: nat) | Join(id: Uuid) | Beat(id: Uuid) | Leave(id: Uuid) | Sweep

  /** Sweeps are at most `SWEEP_INTERVAL` apart: time may not pass beyond the next one. */
  predicate Enabled(t: Table, e: Event) {
    e.Wait? ==> t.now + e.ms <= t.lastSweep + SWEEP_INTERVAL
  }

  function Apply(t: Table, e: Event): Table {
    match e
    case Wait(ms) => t.(now := t.now + ms)
    case Join(id) => t.(entries := t.entries[id := t.now])
    case Beat(id) => if id in t.entries then t.(entries := t.entries[id := t.now]) else t
    case Leave(id) => t.(entries := t.entries - {id})
    case Sweep => t.(lastSweep := t.now, entries := Fresh(t.entries, t.now))
  }

  function Run(t: Table, es: seq<Event>): Table {
    if es == [] then t else Apply(Run(t, es[..|es| - 1]), es[|es| - 1])
  }

  predicate Legal(t: Table, es: seq<Event>) {
    es == [] || (Legal(t, es[..|es| - 1]) && Enabled(Run(t, es[..|es| - 1]), es[|es| - 1]))
  }

  const START: Table := Table(0, 0, map[])

  ghost predicate SweptRecently(t: Table) {
    && t.lastSweep <= t.now <= t.lastSweep + SWEEP_INTERVAL
    && forall id :: id in t.entries ==> t.entries[id] <= t.now && t.lastSweep <= t.entries[id] + CONNECTION_TIMEOUT
  }

  lemma {:induction false} AlwaysSweptRecently(es: seq<Event>)
    requires Legal(START, es)
    ensures SweptRecently(Run(START, es))
  {
    if es != [] {
      AlwaysSweptRecently(es[..|es| - 1]);
    }
  }

  /** No table entry's heartbeat is ever older than 150 s. */
  lemma NoEntryOlderThan150s(es: seq<Event>, id: Uuid)
    requires Legal(START, es) && id in Run(START, es).entries
    ensures Run(START, es).now - Run(START, es).entries[id] <= CONNECTION_TIMEOUT + SWEEP_INTERVAL
  {
    AlwaysSweptRecently(es);
  }

  // --- heartbeats on time ------------------------------------------------------------

  /** How long ago the last heartbeat of entry `id` was sent, `age` being how long ago it was
      at the start: the time waited since the last `Join(id)` or `Beat(id)`. */
  function Silence(es: seq<Event>, id: Uuid, age: nat): nat {
    if es == [] then age
    else
      var before := Silence(es[..|es| - 1], id, age);
      match es[|es| - 1]
      case Wait(ms) => before + ms
      case Join(j) => if j == id then 0 else before
      case Beat(j) => if j == id then 0 else before
      case _ => before
  }

  predicate Present(t: Table, id: Uuid) {
    id in t.entries && t.entries[id] <= t.now
  }

  function Age(t: Table, id: Uuid): nat
    requires Present(t, id)
  {
    t.now - t.entries[id]
  }

  /** At every sweep the last heartbeat of the entry is at most 120 s old. */
  ghost predicate OnTime(es: seq<Event>, id: Uuid, age: nat) {
    forall i :: 0 <= i < |es| && es[i].Sweep? ==> Silence(es[..i], id, age) <= CONNECTION_TIMEOUT
  }

  lemma OnTimeSnoc(es: seq<Event>, id: Uuid, age: nat)
    requires es != []
    ensures
      var init := es[..|es| - 1];
      OnTime(es, id, age) <==>
        OnTime(init, id, age) && (es[|es| - 1].Sweep? ==> Silence(init, id, age) <= CONNECTION_TIMEOUT)
  {
    var init := es[..|es| - 1];
    assert forall i :: 0 <= i < |init| ==> init[i] == es[i] && init[..i] == es[..i];
  }

  /** An entry nobody removes or adds on request stays exactly as long as its heartbeats are on
      time for the sweeps; and while it stays, the stored heartbeat is the time of the last
      one sent. */
  lemma {:induction false} StaysIff(t: Table, es: seq<Event>, id: Uuid)
    requires Present(t, id) && Leave(id) !in es && Join(id) !in es
    ensures id in Run(t, es).entries <==> OnTime(es, id, Age(t, id))
    ensures id in Run(t, es).entries ==>
      Present(Run(t, es), id) && Age(Run(t, es), id) == Silence(es, id, Age(t, id))
  {
    if es != [] {
      var init, e := es[..|es| - 1], es[|es| - 1];
      assert e in es && forall x :: x in init ==> x in es;
      StaysIff(t, init, id);
      OnTimeSnoc(es, id, Age(t, id));
    }
  }

  /** An entry whose heartbeats are never more than 120 s apart is never swept, however the
      entry came about and whatever else happens to the table. */
  lemma {:induction false} RefreshedStays(t: Table, es: seq<Event>, id: Uuid)
    requires Present(t, id) && Leave(id) !in es
    requires forall i :: 0 <= i <= |es| ==> Silence(es[..i], id, Age(t, id)) <= CONNECTION_TIMEOUT
    ensures Present(Run(t, es), id) && Age(Run(t, es), id) == Silence(es, id, Age(t, id))
  {
    if es != [] {
      var n := |es| - 1;
      assert es[n] in es && forall x :: x in es[..n] ==> x in es;
      forall i | 0 <= i <= n ensures es[..n][..i] == es[..i] {
      }
      RefreshedStays(t, es[..n], id);
      assert es[..n + 1] == es;
    } else {
      assert es[..0] == [];
    }
  }

  // --- the agent's watchdog ------------------------------------------------------------

  /** The last acknowledgement seen by time `now`; 0 before the first.  `acks` are the
      times at which acknowledgements arrived, in order. */
  function LastAck(acks: seq<nat>, now: nat): nat {
    if acks == [] then 0
    else if acks[|acks| - 1] <= now then acks[|acks| - 1]
    else LastAck(acks[..|acks| - 1], now)
  }

  ghost predicate Ordered(acks: seq<nat>) {
    && (forall i :: 0 <= i < |acks| ==> 0 < acks[i])
    && (forall i, j :: 0 <= i < j < |acks| ==> acks[i] <= acks[j])
  }

  lemma {:induction false} LastAckIs(acks: seq<nat>, now: nat)
    requires Ordered(acks)
    ensures LastAck(acks, now) <= now
    ensures LastAck(acks, now) == 0 || LastAck(acks, now) in acks
    ensures forall i :: 0 <= i < |acks| && acks[i] <= now ==> acks[i] <= LastAck(acks, now)
  {
    if acks != [] && acks[|acks| - 1] > now {
      LastAckIs(acks[..|acks| - 1], now);
    }
  }

  predicate Cancels(acks: seq<nat>, interval: nat, now: nat) {
    var last := LastAck(acks, now);
    last > 0 && (if now >= last then now - last else 0) > 3 * interval
  }

  function TickTime(start: nat, interval: nat, j: nat): nat {
    start + j * interval
  }

  /** The heartbeat loop: tick until an acknowledgement is overdue, or the horizon. */
  method Watchdog(start: nat, interval: nat, acks: seq<nat>, horizon: nat) returns (cancelled: Option<nat>)
    ensures cancelled.Some? ==>
      && cancelled.value < horizon && Cancels(acks, interval, TickTime(start, interval, cancelled.value))
      && forall j :: 0 <= j < cancelled.value ==> !Cancels(acks, interval, TickTime(start, interval, j))
    ensures cancelled.None? ==> forall j :: 0 <= j < horizon ==> !Cancels(acks, interval, TickTime(start, interval, j))
  {
    var j := 0;
    while j < horizon
      invariant j <= horizon
      invariant forall i :: 0 <= i < j ==> !Cancels(acks, interval, TickTime(start, interval, i))
    {
      if Cancels(acks, interval, TickTime(start, interval, j)) {
        return Some(j);
      }
      j := j + 1;
    }
    return None;
  }

  /** The watchdog cancels only after more than three intervals of silence. */
  lemma CancelsOnlyAfterSilence(acks: seq<nat>, interval: nat, now: nat)
    requires Ordered(acks) && Cancels(acks, interval, now)
    ensures exists a :: a in acks && a + 3 * interval < now
    ensures forall i :: 0 <= i < |acks| && acks[i] <= now ==> acks[i] + 3 * interval < now
  {
    LastAckIs(acks, now);
    assert LastAck(acks, now) in acks;
  }

  /** Once an acknowledgement was seen, four intervals of silence are the most the
      watchdog waits: some tick after three of them cancels, none before does. */
  lemma CancelsWithinFour(start: nat, interval: nat, acks: seq<nat>, a: nat) returns (j: nat)
    requires Ordered(acks) && 0 < interval && a in acks && start <= a
    requires forall i :: 0 <= i < |acks| ==> acks[i] <= a || a + 4 * interval < acks[i]
    ensures a + 3 * interval < TickTime(start, interval, j) <= a + 4 * interval
    ensures Cancels(acks, interval, TickTime(start, interval, j))
    ensures forall i: nat :: a <= TickTime(start, interval, i) <= a + 3 * interval ==>
      !Cancels(acks, interval, TickTime(start, interval, i))
  {
    var gap := a + 3 * interval - start;
    j := gap / interval + 1;
    DivBounds(gap, interval);
    LastAckIs(acks, TickTime(start, interval, j));
    forall i: nat | a <= TickTime(start, interval, i) <= a + 3 * interval
      ensures !Cancels(acks, interval, TickTime(start, interval, i))
    {
      LastAckIs(acks, TickTime(start, interval, i));
    }
  }

  lemma DivBounds(gap: nat, interval: nat)
    requires 0 < interval
    ensures gap < (gap / interval + 1) * interval <= gap + interval
  {
    assert gap == (gap / interval) * interval + gap % interval;
  }
}
