/** The node and challenge tables.  Each method of the database is one SQL statement; the
    three request handlers below run their statements without interruption. */
module Tables {
  import opened Protocol

  datatype Row = Row(owner: Uuid, publicKey: string, hostname: string, revoked: bool)

  datatype Challenge = Challenge(text: string, expiresAt: int)

  /** `byKey` is the unique index on public keys. */
  datatype Db = Db(nodes: map<Uuid, Row>, byKey: map<string, Uuid>, challenges: map<Uuid, Challenge>) {
    ghost predicate Valid() {
      && (forall k :: k in byKey ==> byKey[k] in nodes && nodes[byKey[k]].publicKey == k)
      && (forall n :: n in nodes ==> nodes[n].publicKey in byKey && byKey[nodes[n].publicKey] == n)
      && (forall n :: n in challenges ==> n in nodes)
    }
  }

  /** Insert the node under a fresh id, or on conflict update everything but its owner. */
  function Claim(db: Db, user: Uuid, key: string, hostname: string, newId: Uuid): (Db, Uuid)
    requires db.Valid() && newId !in db.nodes
  {
    if key in db.byKey then
      var n := db.byKey[key];
      (db.(nodes := db.nodes[n := db.nodes[n].(hostname := hostname)]), n)
    else
      (db.(nodes := db.nodes[newId := Row(user, key, hostname, false)], byKey := db.byKey[key := newId]), newId)
  }

  predicate MayLogIn(db: Db, n: Uuid) {
    n in db.nodes && !db.nodes[n].revoked
  }

  /** A challenge refers to an existing node; a later one replaces it. */
  function Put(db: Db, n: Uuid, c: Challenge): Option<Db> {
    if n in db.nodes then Some(db.(challenges := db.challenges[n := c])) else None
  }

  function Get(db: Db, n: Uuid, text: string): Option<Challenge> {
    if n in db.challenges && db.challenges[n].text == text then Some(db.challenges[n]) else None
  }

  function Consume(db: Db, n: Uuid, text: string): Db {
    if n in db.challenges && db.challenges[n].text == text then db.(challenges := db.challenges - {n}) else db
  }

  /** The scheduled cleanup of expired challenges. */
  function Purge(db: Db, now: int): Db {
    db.(challenges := map n | n in db.challenges && db.challenges[n].expiresAt > now :: db.challenges[n])
  }

  // --- the challenge table and its history ---------------------------------------------------

  datatype Statement = Upsert(n: Uuid, c: Challenge) | Delete(n: Uuid, text: string) | Cleanup(now: int)

  function After(db: Db, q: Statement): Db {
    match q
    case Upsert(n, c) => if Put(db, n, c).Some? then Put(db, n, c).value else db
    case Delete(n, text) => Consume(db, n, text)
    case Cleanup(now) => Purge(db, now)
  }

  function AfterAll(db: Db, qs: seq<Statement>): Db {
    if qs == [] then db else After(AfterAll(db, qs[..|qs| - 1]), qs[|qs| - 1])
  }

  /** The statement ends the life of a challenge stored for `n`: it replaces or deletes it, or
      finds it expired. */
  predicate Ends(q: Statement, n: Uuid, c: Challenge) {
    match q
    case Upsert(m, _) => m == n
    case Delete(m, text) => m == n && text == c.text
    case Cleanup(now) => c.expiresAt <= now
  }

  ghost predicate Alive(qs: seq<Statement>, n: Uuid, c: Challenge) {
    exists i: nat :: i < |qs| && qs[i] == Upsert(n, c) && forall j :: i < j < |qs| ==> !Ends(qs[j], n, c)
  }

  lemma AliveSnoc(qs: seq<Statement>, q: Statement, n: Uuid, c: Challenge)
    ensures Alive(qs + [q], n, c) <==> q == Upsert(n, c) || (Alive(qs, n, c) && !Ends(q, n, c))
  {
    var longer := qs + [q];
    assert longer[|qs|] == q;
    if Alive(qs, n, c) && !Ends(q, n, c) {
      var i: nat :| i < |qs| && qs[i] == Upsert(n, c) && forall j :: i < j < |qs| ==> !Ends(qs[j], n, c);
      assert longer[i] == qs[i];
    }
    if Alive(longer, n, c) && q != Upsert(n, c) {
      var i: nat :| i < |longer| && longer[i] == Upsert(n, c) && forall j :: i < j < |longer| ==>
        !Ends(longer[j], n, c);
      assert qs[i] == longer[i];
      assert forall j :: i < j < |qs| ==> qs[j] == longer[j];
    }
  }

  /** A lookup finds a challenge exactly if the last upsert for the node stored it and nothing
      has deleted it or found it expired since. */
  lemma {:induction false} FoundIffAlive(db: Db, qs: seq<Statement>, n: Uuid, text: string, c: Challenge)
    requires n in db.nodes && n !in db.challenges
    ensures AfterAll(db, qs).nodes == db.nodes
    ensures Get(AfterAll(db, qs), n, text) == Some(c) <==> c.text == text && Alive(qs, n, c)
  {
    if qs != [] {
      var init, q := qs[..|qs| - 1], qs[|qs| - 1];
      assert qs == init + [q];
      FoundIffAlive(db, init, n, text, c);
      AliveSnoc(init, q, n, c);
      hide Alive;
    }
  }

  class Database {
    var nodes: map<Uuid, Row>
    var byKey: map<string, Uuid>
    var challenges: map<Uuid, Challenge>

    function Value(): Db
      reads this
    {
      Db(nodes, byKey, challenges)
    }

    constructor ()
      ensures Value() == Db(map[], map[], map[]) && Value().Valid()
    {
      nodes, byKey, challenges := map[], map[], map[];
    }

    method ClaimNodeByPublicKey(user: Uuid, key: string, hostname: string, newId: Uuid) returns (n: Uuid)
      requires Value().Valid() && newId !in nodes
      modifies this`nodes, this`byKey
      ensures Value().Valid() && (Value(), n) == Claim(old(Value()), user, key, hostname, newId)
    {
      if key in byKey {
        n := byKey[key];
        nodes := nodes[n := nodes[n].(hostname := hostname)];
      } else {
        n := newId;
        nodes := nodes[n := Row(user, key, hostname, false)];
        byKey := byKey[key := n];
      }
    }

    method UpsertAuthChallenge(n: Uuid, c: Challenge) returns (ok: bool)
      requires Value().Valid()
      modifies this`challenges
      ensures Value().Valid()
      ensures if ok then Put(old(Value()), n, c) == Some(Value()) else Value() == old(Value()) && n !in nodes
    {
      ok := n in nodes;
      if ok {
        challenges := challenges[n := c];
      }
    }

    method GetAuthChallenge(n: Uuid, text: string) returns (c: Option<Challenge>)
      ensures c == Get(Value(), n, text)
    {
      c := if n in challenges && challenges[n].text == text then Some(challenges[n]) else None;
    }

    method ConsumeAuthChallenge(n: Uuid, text: string)
      requires Value().Valid()
      modifies this`challenges
      ensures Value().Valid() && Value() == Consume(old(Value()), n, text)
    {
      if n in challenges && challenges[n].text == text {
        challenges := challenges - {n};
      }
    }

    // --- handlers, uninterrupted -----------------------------------------------------------

    method CreateAuthChallenge(n: Uuid, text: string, expiresAt: int)
      requires Value().Valid()
      modifies this`challenges
      ensures Value().Valid() && nodes == old(nodes)
      ensures challenges ==
        if MayLogIn(old(Value()), n) then old(challenges)[n := Challenge(text, expiresAt)] else old(challenges)
    {
      if n in nodes && !nodes[n].revoked {
        var _ := UpsertAuthChallenge(n, Challenge(text, expiresAt));
      }
    }

    /** Uninterrupted, a challenge is good for one attempt: once found it is gone, whatever
        the outcome, and without it there is no token. */
    method VerifyAuthChallenge(n: Uuid, text: string, signature: string, now: int,
                               valid: (string, string, string) -> bool)
      returns (granted: bool)
      requires Value().Valid()
      modifies this`challenges
      ensures Value().Valid() && nodes == old(nodes)
      ensures granted <==>
        && MayLogIn(old(Value()), n)
        && n in old(challenges) && old(challenges)[n].text == text && now < old(challenges)[n].expiresAt
        && valid(nodes[n].publicKey, text, signature)
      ensures MayLogIn(old(Value()), n) ==> Get(Value(), n, text) == None
      ensures forall m :: m in old(challenges) && m != n ==> m in challenges && challenges[m] == old(challenges)[m]
    {
      if n !in nodes || nodes[n].revoked {
        return false;
      }
      var key := nodes[n].publicKey;
      var record := GetAuthChallenge(n, text);
      if record == None {
        return false;
      }
      ConsumeAuthChallenge(n, text);
      if record.value.expiresAt <= now {
        return false;
      }
      granted := valid(key, text, signature);
    }

    /** Uninterrupted, a claim succeeds exactly for a key that is new or the user's own. */
    method ClaimNode(user: Uuid, key: string, hostname: string, newId: Uuid) returns (n: Option<Uuid>)
      requires Value().Valid() && newId !in nodes
      modifies this`nodes, this`byKey
      ensures Value().Valid()
      ensures n.Some? <==> key !in old(byKey) || old(nodes)[old(byKey)[key]].owner == user
      ensures n.Some? ==> key in byKey && n.value == byKey[key] && nodes[n.value].owner == user
      ensures n == None ==> Value() == old(Value())
      ensures forall k :: k in old(byKey) ==>
        k in byKey && byKey[k] == old(byKey)[k] && nodes[byKey[k]].owner == old(nodes)[byKey[k]].owner
    {
      if key in byKey && nodes[byKey[key]].owner != user {
        return None;
      }
      var id := ClaimNodeByPublicKey(user, key, hostname, newId);
      n := Some(id);
    }
  }
}
