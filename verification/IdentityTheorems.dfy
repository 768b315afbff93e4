/** Stable ownership, the provenance of tokens and sockets, and what remains of one-time use
    when requests interleave. */
module IdentityTheorems {
  import opened Protocol
  import opened Tables
  import opened Identity

  lemma UpsertValid(s: State, r: nat, newId: Uuid)
    requires s.db.Valid()
    ensures DoUpsert(s, r, newId).0.db.Valid()
  {
  }

  lemma StoreValid(s: State, r: nat, expiresAt: int)
    requires s.db.Valid()
    ensures DoStore(s, r, expiresAt).0.db.Valid()
  {
  }

  lemma DeleteValid(db: Db, n: Uuid, text: string, now: int)
    requires db.Valid()
    ensures Consume(db, n, text).Valid() && Purge(db, now).Valid()
  {
  }

  lemma RevokeValid(db: Db, n: Uuid, revoked: bool)
    requires db.Valid() && n in db.nodes
    ensures db.(nodes := db.nodes[n := db.nodes[n].(revoked := revoked)]).Valid()
  {
  }

  lemma StepValid(valid: Verifier, s: State, e: Event)
    requires s.db.Valid()
    ensures Step(valid, s, e).0.db.Valid()
  {
    hide Db.Valid, Consume, Purge, DoUpsert, DoStore;
    match e
    case UpsertNode(r, newId) => UpsertValid(s, r, newId);
    case StoreChallenge(r, expiresAt) => StoreValid(s, r, expiresAt);
    case ConsumeChallenge(r) =>
      if r in s.tasks && s.tasks[r].Found? {
        DeleteValid(s.db, s.tasks[r].node, s.tasks[r].text, 0);
      }
    case PurgeExpired(now) => DeleteValid(s.db, 0, "", now);
    case SetRevoked(n, revoked) =>
      if n in s.db.nodes {
        RevokeValid(s.db, n, revoked);
      }
    case _ =>
  }

  function Run(valid: Verifier, s: State, es: seq<Event>): (s': State)
    requires s.db.Valid()
    ensures s'.db.Valid()
  {
    if es == [] then s
    else
      StepValid(valid, Run(valid, s, es[..|es| - 1]), es[|es| - 1]);
      Step(valid, Run(valid, s, es[..|es| - 1]), es[|es| - 1]).0
  }

  const START: State := State(Db(map[], map[], map[]), map[], map[], {}, map[], 0)

  function OutputAt(valid: Verifier, es: seq<Event>, i: nat): Output
    requires i < |es|
  {
    Step(valid, Run(valid, START, es[..i]), es[i]).1
  }

  // --- invariant --------------------------------------------------------------------------------

  /** Nodes, their keys and their owners stay. */
  ghost predicate Grows(db: Db, db': Db) {
    && (forall n :: n in db.nodes ==>
          n in db'.nodes && db'.nodes[n].publicKey == db.nodes[n].publicKey && db'.nodes[n].owner == db.nodes[n].owner)
    && (forall k :: k in db.byKey ==> k in db'.byKey && db'.byKey[k] == db.byKey[k])
  }

  lemma UpsertGrows(s: State, r: nat, newId: Uuid)
    requires s.db.Valid()
    ensures Grows(s.db, DoUpsert(s, r, newId).0.db)
  {
  }

  lemma NodesUntouched(valid: Verifier, s: State, e: Event)
    requires s.db.Valid() && !e.UpsertNode? && !e.SetRevoked?
    ensures
      var s' := Step(valid, s, e).0;
      s'.db.nodes == s.db.nodes && s'.db.byKey == s.db.byKey
  {
    hide Db.Valid;
  }

  lemma TokensKept(valid: Verifier, s: State, e: Event)
    requires s.db.Valid()
    ensures s.issued <= Step(valid, s, e).0.issued
  {
    hide Db.Valid;
  }

  lemma StepGrows(valid: Verifier, s: State, e: Event)
    requires s.db.Valid()
    ensures Grows(s.db, Step(valid, s, e).0.db) && s.issued <= Step(valid, s, e).0.issued
  {
    TokensKept(valid, s, e);
    if e.UpsertNode? {
      UpsertGrows(s, e.r, e.newId);
      hide Db.Valid, DoUpsert, Grows;
    } else if e.SetRevoked? {
      hide Db.Valid;
    } else {
      NodesUntouched(valid, s, e);
      hide Db.Valid, Step;
    }
  }

  lemma TaskStays(db: Db, db': Db, issued: set<Token>, issued': set<Token>, p: Task)
    requires Grows(db, db') && issued <= issued' && TaskOk(db, issued, p)
    ensures TaskOk(db', issued', p)
  {
    if p.Admitted? || p.Confirmed? {
      MoreTokens(issued, issued', p.node);
    }
  }

  lemma MoreTokens(issued: set<Token>, issued': set<Token>, node: Uuid)
    requires issued <= issued' && HasToken(issued, node)
    ensures HasToken(issued', node)
  {
    var token :| token in issued && token.node == node;
    assert token in issued';
  }

  /** A step gives its request a state that its lookups justify, and leaves all others. */
  lemma TaskStep(valid: Verifier, s: State, e: Event, r: nat)
    requires s.db.Valid() && r in Step(valid, s, e).0.tasks
    requires r in s.tasks ==> TaskOk(s.db, s.issued, s.tasks[r])
    ensures
      var s' := Step(valid, s, e).0;
      || (r in s.tasks && s'.tasks[r] == s.tasks[r])
      || TaskOk(s.db, s.issued, s'.tasks[r])
  {
    if e.Admit? && e.token in s.issued {
      assert HasToken(s.issued, e.token.node);
    }
    hide HasToken;
  }

  lemma RegisteredStep(valid: Verifier, s: State, e: Event, r: nat)
    requires s.db.Valid() && r in Step(valid, s, e).0.registered
    ensures
      var s' := Step(valid, s, e).0;
      || (r in s.registered && s'.registered[r] == s.registered[r])
      || (r in s.tasks && s.tasks[r] == Confirmed(s'.registered[r]))
  {
    hide Db.Valid, HasToken;
  }

  lemma TasksStep(valid: Verifier, s: State, e: Event)
    requires s.db.Valid() && TasksOk(s.db, s.tasks, s.issued, s.registered)
    ensures var s' := Step(valid, s, e).0; TasksOk(s'.db, s'.tasks, s'.issued, s'.registered)
  {
    hide Step, Db.Valid, Grows, HasToken;
    var s' := Step(valid, s, e).0;
    StepGrows(valid, s, e);
    forall r | r in s'.tasks ensures TaskOk(s'.db, s'.issued, s'.tasks[r]) {
      hide TaskOk;
      TaskStep(valid, s, e, r);
      TaskStays(s.db, s'.db, s.issued, s'.issued, s'.tasks[r]);
    }
    forall r | r in s'.registered ensures HasToken(s'.issued, s'.registered[r]) {
      RegisteredStep(valid, s, e, r);
      MoreTokens(s.issued, s'.issued, s'.registered[r]);
    }
  }

  // Challenges: only five kinds of step touch what they are about.

  lemma AskChallengeKeeps(s: State, r: nat, node: Uuid, text: string)
    requires ChallengesOk(s.db.challenges, s.tasks, s.given)
    ensures var s' := DoAskChallenge(s, r, node, text).0; ChallengesOk(s'.db.challenges, s'.tasks, s'.given)
  {
  }

  lemma StoreKeeps(s: State, r: nat, expiresAt: int)
    requires ChallengesOk(s.db.challenges, s.tasks, s.given)
    ensures var s' := DoStore(s, r, expiresAt).0; ChallengesOk(s'.db.challenges, s'.tasks, s'.given)
  {
  }

  lemma FindKeeps(s: State, r: nat)
    requires ChallengesOk(s.db.challenges, s.tasks, s.given)
    ensures var s' := DoFind(s, r).0; ChallengesOk(s'.db.challenges, s'.tasks, s'.given)
  {
  }

  lemma ConsumeKeeps(s: State, r: nat)
    requires ChallengesOk(s.db.challenges, s.tasks, s.given)
    ensures var s' := DoConsume(s, r).0; ChallengesOk(s'.db.challenges, s'.tasks, s'.given)
  {
  }

  /** Any other change of one request, and any deletion of challenges. */
  lemma UnrelatedKeeps(challenges: map<Uuid, Challenge>, tasks: Tasks, given: map<string, Uuid>,
                       challenges': map<Uuid, Challenge>, tasks': Tasks, r: nat)
    requires ChallengesOk(challenges, tasks, given)
    requires forall n :: n in challenges' ==> n in challenges && challenges'[n] == challenges[n]
    requires forall q :: q in tasks' && q != r ==> q in tasks && tasks'[q] == tasks[q]
    requires r in tasks' ==> (r in tasks && tasks'[r] == tasks[r]) || !(tasks'[r].Storing? || WasFound(tasks'[r]))
    ensures ChallengesOk(challenges', tasks', given)
  {
  }

  /** Which request an event belongs to. */
  function RequestOf(e: Event): nat {
    match e
    case PurgeExpired(_) => 0
    case SetRevoked(_, _) => 0
    case _ => e.r
  }

  predicate TouchesChallenges(e: Event) {
    e.AskChallenge? || e.StoreChallenge? || e.FindChallenge? || e.ConsumeChallenge?
  }

  lemma OtherChange(valid: Verifier, s: State, e: Event)
    requires s.db.Valid() && !TouchesChallenges(e)
    ensures
      var s', r := Step(valid, s, e).0, RequestOf(e);
      && s'.given == s.given
      && s'.db.challenges == (if e.PurgeExpired? then Purge(s.db, e.now).challenges else s.db.challenges)
      && (r in s'.tasks && !(r in s.tasks && s'.tasks[r] == s.tasks[r]) ==>
          !s'.tasks[r].Storing? && !WasFound(s'.tasks[r]))
      && (s'.tasks == s.tasks || s'.tasks == s.tasks - {r} || (r in s'.tasks && s'.tasks == s.tasks[r := s'.tasks[r]]))
  {
    hide Db.Valid, Purge;
  }

  lemma ChallengesStep(valid: Verifier, s: State, e: Event)
    requires s.db.Valid() && ChallengesOk(s.db.challenges, s.tasks, s.given)
    ensures var s' := Step(valid, s, e).0; ChallengesOk(s'.db.challenges, s'.tasks, s'.given)
  {
    if TouchesChallenges(e) {
      hide Db.Valid, ChallengesOk, DoAskChallenge, DoStore, DoFind, DoConsume;
      match e
      case AskChallenge(r, node, text) => AskChallengeKeeps(s, r, node, text);
      case StoreChallenge(r, expiresAt) => StoreKeeps(s, r, expiresAt);
      case FindChallenge(r) => FindKeeps(s, r);
      case ConsumeChallenge(r) => ConsumeKeeps(s, r);
    } else {
      OtherChange(valid, s, e);
      hide Db.Valid, Step, ChallengesOk, WasFound;
      var s' := Step(valid, s, e).0;
      UnrelatedKeeps(s.db.challenges, s.tasks, s.given, s'.db.challenges, s'.tasks, RequestOf(e));
    }
  }

  lemma StepKeeps(valid: Verifier, s: State, e: Event)
    requires Inv(s)
    ensures Inv(Step(valid, s, e).0)
  {
    hide Step, Db.Valid, ChallengesOk, TasksOk;
    StepValid(valid, s, e);
    ChallengesStep(valid, s, e);
    TasksStep(valid, s, e);
  }

  lemma {:induction false} RunKeeps(valid: Verifier, s: State, es: seq<Event>)
    requires s.db.Valid() && Inv(s)
    ensures Inv(Run(valid, s, es))
  {
    hide Step, Inv;
    if es != [] {
      RunKeeps(valid, s, es[..|es| - 1]);
      StepKeeps(valid, Run(valid, s, es[..|es| - 1]), es[|es| - 1]);
    }
  }

  // --- ownership --------------------------------------------------------------------------------------

  lemma StepOwner(valid: Verifier, s: State, e: Event, key: string)
    requires s.db.Valid() && key in s.db.byKey
    ensures
      var db, db' := s.db, Step(valid, s, e).0.db;
      && key in db'.byKey && db'.byKey[key] == db.byKey[key]
      && db.byKey[key] in db'.nodes && db'.nodes[db.byKey[key]].owner == db.nodes[db.byKey[key]].owner
  {
    hide Step;
    StepGrows(valid, s, e);
  }

  /** Under every interleaving the owner and the node id of a public key never change after
      its first insert. */
  lemma {:induction false} OwnerNeverChanges(valid: Verifier, s: State, es: seq<Event>, key: string)
    requires s.db.Valid() && key in s.db.byKey
    ensures
      var db, db' := s.db, Run(valid, s, es).db;
      && key in db'.byKey && db'.byKey[key] == db.byKey[key]
      && db'.nodes[db.byKey[key]].owner == db.nodes[db.byKey[key]].owner
  {
    hide Step;
    if es != [] {
      OwnerNeverChanges(valid, s, es[..|es| - 1], key);
      StepValid(valid, Run(valid, s, es[..|es| - 1]), es[|es| - 1]);
      StepOwner(valid, Run(valid, s, es[..|es| - 1]), es[|es| - 1], key);
    }
  }

  lemma {:induction false} RunSplit(valid: Verifier, s: State, es: seq<Event>, i: nat)
    requires s.db.Valid() && i <= |es|
    ensures Run(valid, s, es) == Run(valid, Run(valid, s, es[..i]), es[i..])
    decreases |es|
  {
    hide Step;
    if i < |es| {
      var init := es[..|es| - 1];
      RunSplit(valid, s, init, i);
      assert init[..i] == es[..i] && init[i..] == es[i..][..|es| - 1 - i];
    } else {
      assert es[..i] == es && es[i..] == [];
    }
  }

  /** The key a successful claim was for. */
  ghost predicate ClaimsAt(valid: Verifier, es: seq<Event>, i: nat, key: string, n: Uuid)
    requires i < |es|
  {
    && es[i].UpsertNode? && OutputAt(valid, es, i) == Claimed(n)
    && var s := Run(valid, START, es[..i]);
       es[i].r in s.tasks && s.tasks[es[i].r].Claiming? && s.tasks[es[i].r].key == key
  }

  lemma UpsertFixes(valid: Verifier, s: State, e: Event)
    requires s.db.Valid() && e.UpsertNode? && e.r in s.tasks && s.tasks[e.r].Claiming? && Step(valid, s, e).1.Claimed?
    ensures
      var db := Step(valid, s, e).0.db;
      s.tasks[e.r].key in db.byKey && db.byKey[s.tasks[e.r].key] == Step(valid, s, e).1.node
  {
  }

  /** Whoever claims a key again, whenever, gets the same node id. */
  lemma SameKeySameNode(valid: Verifier, es: seq<Event>, i: nat, j: nat, key: string, m: Uuid, n: Uuid)
    requires i < j < |es| && ClaimsAt(valid, es, i, key, m) && ClaimsAt(valid, es, j, key, n)
    ensures m == n
  {
    hide Step;
    var s, t := Run(valid, START, es[..i]), Run(valid, START, es[..j]);
    UpsertFixes(valid, s, es[i]);
    UpsertFixes(valid, t, es[j]);
    StepValid(valid, s, es[i]);
    StepValid(valid, t, es[j]);
    var s' := Step(valid, s, es[i]).0;
    assert es[..i + 1][..i] == es[..i] && es[..i + 1][i] == es[i];
    assert Run(valid, START, es[..i + 1]) == s';
    RunSplit(valid, START, es[..j], i + 1);
    assert es[..j][..i + 1] == es[..i + 1];
    OwnerNeverChanges(valid, s', es[..j][i + 1..], key);
    StepOwner(valid, t, es[j], key);
  }

  /** Step `k` is the first insert of the key, on behalf of user `u`. */
  ghost predicate InsertsAt(valid: Verifier, es: seq<Event>, k: nat, key: string, u: Uuid)
    requires k < |es|
  {
    var s := Run(valid, START, es[..k]);
    && es[k].UpsertNode? && es[k].newId !in s.db.nodes && key !in s.db.byKey
    && es[k].r in s.tasks && s.tasks[es[k].r].Claiming?
    && s.tasks[es[k].r].key == key && s.tasks[es[k].r].user == u
  }

  predicate OwnedBy(db: Db, key: string, u: Uuid) {
    key in db.byKey && db.byKey[key] in db.nodes && db.nodes[db.byKey[key]].owner == u
  }

  lemma RunSnoc(valid: Verifier, es: seq<Event>, k: nat)
    requires k < |es|
    ensures Run(valid, START, es[..k + 1]) == Step(valid, Run(valid, START, es[..k]), es[k]).0
  {
    assert es[..k + 1][..k] == es[..k] && es[..k + 1][k] == es[k];
  }

  lemma InsertOwns(valid: Verifier, es: seq<Event>, k: nat, key: string, u: Uuid)
    requires k < |es| && InsertsAt(valid, es, k, key, u)
    ensures OwnedBy(Run(valid, START, es[..k + 1]).db, key, u)
  {
    RunSnoc(valid, es, k);
    hide Run;
  }

  /** Only an insert brings a key in. */
  lemma NewKeyStep(valid: Verifier, s: State, e: Event, key: string)
    requires s.db.Valid() && key !in s.db.byKey && key in Step(valid, s, e).0.db.byKey
    ensures
      && e.UpsertNode? && e.newId !in s.db.nodes && e.r in s.tasks && s.tasks[e.r].Claiming?
      && s.tasks[e.r].key == key
  {
    if !e.UpsertNode? && !e.SetRevoked? {
      NodesUntouched(valid, s, e);
      hide Step, Db.Valid;
    }
  }

  lemma {:induction false} OwnerLasts(valid: Verifier, es: seq<Event>, i: nat, j: nat, key: string, u: Uuid)
    requires i <= j <= |es| && OwnedBy(Run(valid, START, es[..i]).db, key, u)
    ensures OwnedBy(Run(valid, START, es[..j]).db, key, u)
    decreases j
  {
    hide Step, Run;
    if i < j {
      OwnerLasts(valid, es, i, j - 1, key, u);
      RunSnoc(valid, es, j - 1);
      StepOwner(valid, Run(valid, START, es[..j - 1]), es[j - 1], key);
    }
  }

  /** A key that appeared between two points was inserted in between, by its owner. */
  lemma {:induction false} InsertedBetween(valid: Verifier, es: seq<Event>, i: nat, j: nat, key: string)
    returns (k: nat, u: Uuid)
    requires i <= j <= |es|
    requires key !in Run(valid, START, es[..i]).db.byKey && key in Run(valid, START, es[..j]).db.byKey
    ensures i <= k < j && InsertsAt(valid, es, k, key, u) && OwnedBy(Run(valid, START, es[..j]).db, key, u)
    decreases j
  {
    hide Step, Run;
    if key in Run(valid, START, es[..j - 1]).db.byKey {
      k, u := InsertedBetween(valid, es, i, j - 1, key);
      OwnerLasts(valid, es, j - 1, j, key, u);
    } else {
      RunSnoc(valid, es, j - 1);
      var s := Run(valid, START, es[..j - 1]);
      NewKeyStep(valid, s, es[j - 1], key);
      k, u := j - 1, s.tasks[es[j - 1].r].user;
      InsertOwns(valid, es, k, key, u);
      assert k + 1 == j;
    }
  }

  /** The event is a step of request `r`. */
  predicate StepOf(e: Event, r: nat) {
    match e
    case PurgeExpired(_) => false
    case SetRevoked(_, _) => false
    case _ => e.r == r
  }

  lemma OtherRequests(valid: Verifier, s: State, e: Event, r: nat)
    requires s.db.Valid() && !StepOf(e, r)
    ensures
      var tasks := Step(valid, s, e).0.tasks;
      (r in tasks <==> r in s.tasks) && (r in tasks ==> tasks[r] == s.tasks[r])
  {
    hide Db.Valid;
  }

  lemma {:induction false} Waits(valid: Verifier, es: seq<Event>, i: nat, j: nat, r: nat)
    requires i <= j <= |es| && forall k :: i <= k < j ==> !StepOf(es[k], r)
    ensures
      var before, after := Run(valid, START, es[..i]).tasks, Run(valid, START, es[..j]).tasks;
      (r in after <==> r in before) && (r in after ==> after[r] == before[r])
    decreases j
  {
    hide Step, Run, StepOf;
    if i < j {
      Waits(valid, es, i, j - 1, r);
      RunSnoc(valid, es, j - 1);
      OtherRequests(valid, Run(valid, START, es[..j - 1]), es[j - 1], r);
    }
  }

  lemma AskFacts(valid: Verifier, s: State, e: Event)
    requires s.db.Valid() && e.AskClaim? && e.r !in s.tasks
    ensures
      var s' := Step(valid, s, e).0;
      && s'.db == s.db
      && (e.r in s'.tasks ==>
            && s'.tasks[e.r] == Claiming(e.user, e.key, e.hostname, e.key in s.db.byKey)
            && (e.key in s.db.byKey ==> OwnedBy(s.db, e.key, e.user)))
  {
  }

  lemma UpsertFacts(valid: Verifier, s: State, e: Event)
    requires s.db.Valid() && e.UpsertNode? && Step(valid, s, e).1.Claimed?
    ensures e.r in s.tasks && s.tasks[e.r].Claiming? && e.newId !in s.db.nodes
    ensures
      var c, db := s.tasks[e.r], Step(valid, s, e).0.db;
      && c.key in db.byKey && db.byKey[c.key] == Step(valid, s, e).1.node
      && (c.key !in s.db.byKey ==> OwnedBy(db, c.key, c.user))
      && (c.key in s.db.byKey ==> OwnedBy(db, c.key, s.db.nodes[s.db.byKey[c.key]].owner))
  {
  }

  /** A claim asked at step `i` and answered at step `j` hands its user a node of somebody else
      exactly when, between its lookup and its upsert, another user's claim inserted the key. */
  lemma ForeignNodeIff(valid: Verifier, es: seq<Event>, i: nat, j: nat)
    requires i < j < |es| && es[i].AskClaim? && es[j].UpsertNode? && es[i].r == es[j].r
    requires es[i].r !in Run(valid, START, es[..i]).tasks
    requires forall k :: i < k < j ==> !StepOf(es[k], es[i].r)
    requires OutputAt(valid, es, j).Claimed?
    ensures
      var db := Run(valid, START, es[..j + 1]).db;
      && es[i].key in db.byKey && db.byKey[es[i].key] == OutputAt(valid, es, j).node
      && (!OwnedBy(db, es[i].key, es[i].user) <==>
            exists k: nat, u: Uuid :: i < k < j && u != es[i].user && InsertsAt(valid, es, k, es[i].key, u))
  {
    hide Step, Run, InsertsAt, StepOf;
    var key, user := es[i].key, es[i].user;
    var s, t := Run(valid, START, es[..i]), Run(valid, START, es[..j]);
    RunSnoc(valid, es, i);
    RunSnoc(valid, es, j);
    AskFacts(valid, s, es[i]);
    UpsertFacts(valid, t, es[j]);
    Waits(valid, es, i + 1, j, es[i].r);
    forall k: nat, u: Uuid | i < k < j && InsertsAt(valid, es, k, key, u)
      ensures key !in s.db.byKey && OwnedBy(t.db, key, u) {
      Inserted(valid, es, i, k, j, key, u);
    }
    if key in s.db.byKey {
      OwnerLasts(valid, es, i, j, key, user);
    } else if key in t.db.byKey {
      var k, u := InsertedBetween(valid, es, i + 1, j, key);
      assert i < k < j && InsertsAt(valid, es, k, key, u);
    }
  }

  lemma Inserted(valid: Verifier, es: seq<Event>, i: nat, k: nat, j: nat, key: string, u: Uuid)
    requires i <= k < j <= |es| && InsertsAt(valid, es, k, key, u)
    ensures key !in Run(valid, START, es[..i]).db.byKey && OwnedBy(Run(valid, START, es[..j]).db, key, u)
  {
    InsertOwns(valid, es, k, key, u);
    hide Run;
    OwnerLasts(valid, es, k + 1, j, key, u);
    var db := Run(valid, START, es[..i]).db;
    if key in db.byKey {
      OwnerLasts(valid, es, i, k, key, db.nodes[db.byKey[key]].owner);
    }
  }

  // --- tokens ---------------------------------------------------------------------------------------

  predicate StoresFor(s: State, e: Event, n: Uuid) {
    e.StoreChallenge? && e.r in s.tasks && s.tasks[e.r].Storing? && s.tasks[e.r].node == n && n in s.db.nodes
  }

  /** The challenge last stored for a node, by the history of stores alone. */
  function LatestStored(valid: Verifier, es: seq<Event>, n: Uuid): Option<Challenge> {
    if es == [] then None
    else
      var init, e := es[..|es| - 1], es[|es| - 1];
      var s := Run(valid, START, init);
      if StoresFor(s, e, n)
      then Some(Challenge(s.tasks[e.r].text, e.expiresAt))
      else LatestStored(valid, init, n)
  }

  /** The lookup of a request in progress is where it is remembered to be, and what it found
      was the node's latest stored challenge. */
  ghost predicate LookedUp(valid: Verifier, es: seq<Event>, r: nat, p: Task)
    requires WasFound(p)
  {
    && p.foundAt < |es| && es[p.foundAt] == FindChallenge(r)
    && LatestStored(valid, es[..p.foundAt], p.node) == Some(Challenge(p.text, p.expiresAt))
  }

  ghost predicate Traced(valid: Verifier, es: seq<Event>) {
    var s := Run(valid, START, es);
    && (forall n :: n in s.db.challenges ==> LatestStored(valid, es, n) == Some(s.db.challenges[n]))
    && (forall r :: r in s.tasks && WasFound(s.tasks[r]) ==> LookedUp(valid, es, r, s.tasks[r]))
  }

  lemma StoredStep(valid: Verifier, s: State, e: Event, n: Uuid)
    requires s.db.Valid() && n in Step(valid, s, e).0.db.challenges
    ensures
      var c := Step(valid, s, e).0.db.challenges[n];
      if StoresFor(s, e, n)
      then c == Challenge(s.tasks[e.r].text, e.expiresAt)
      else n in s.db.challenges && c == s.db.challenges[n]
  {
  }

  lemma FoundStep(valid: Verifier, s: State, e: Event, r: nat)
    requires s.db.Valid() && r in Step(valid, s, e).0.tasks && WasFound(Step(valid, s, e).0.tasks[r])
    ensures
      var p := Step(valid, s, e).0.tasks[r];
      || (r in s.tasks && WasFound(s.tasks[r])
          && p.node == s.tasks[r].node && p.text == s.tasks[r].text && p.expiresAt == s.tasks[r].expiresAt
          && p.foundAt == s.tasks[r].foundAt)
      || (e == FindChallenge(r) && p.foundAt == s.steps
          && p.node in s.db.challenges && s.db.challenges[p.node] == Challenge(p.text, p.expiresAt))
  {
  }

  lemma {:induction false} AlwaysTraced(valid: Verifier, es: seq<Event>)
    ensures Traced(valid, es)
  {
    hide Step, WasFound, StoresFor;
    if es != [] {
      var init, e := es[..|es| - 1], es[|es| - 1];
      AlwaysTraced(valid, init);
      RunSteps(valid, init);
      var s := Run(valid, START, init);
      var s' := Run(valid, START, es);
      forall n | n in s'.db.challenges ensures LatestStored(valid, es, n) == Some(s'.db.challenges[n]) {
        StoredStep(valid, s, e, n);
      }
      forall r | r in s'.tasks && WasFound(s'.tasks[r]) ensures LookedUp(valid, es, r, s'.tasks[r]) {
        LookedUpStep(valid, init, e, es, r);
      }
    }
  }

  lemma LookedUpStep(valid: Verifier, init: seq<Event>, e: Event, es: seq<Event>, r: nat)
    requires Traced(valid, init) && es == init + [e] && Run(valid, START, init).steps == |init|
    requires
      var s' := Step(valid, Run(valid, START, init), e).0;
      r in s'.tasks && WasFound(s'.tasks[r])
    ensures LookedUp(valid, es, r, Step(valid, Run(valid, START, init), e).0.tasks[r])
  {
    hide Step, Run, LatestStored;
    var s := Run(valid, START, init);
    FoundStep(valid, s, e, r);
    var p := Step(valid, s, e).0.tasks[r];
    if r in s.tasks && WasFound(s.tasks[r]) && p.foundAt == s.tasks[r].foundAt && p.foundAt < |init| {
      assert LookedUp(valid, init, r, s.tasks[r]) ==> es[..p.foundAt] == init[..p.foundAt];
    }
    assert es[..|init|] == init;
  }

  lemma {:induction false} RunSteps(valid: Verifier, es: seq<Event>)
    ensures Run(valid, START, es).steps == |es|
  {
    hide Act;
    if es != [] {
      RunSteps(valid, es[..|es| - 1]);
    }
  }

  lemma StartKeeps()
    ensures Inv(START)
  {
  }

  /** A token is issued only to a request whose lookup found the node's latest stored
      challenge, unexpired at the check and signed with the key the node was claimed with. */
  lemma TokenProvenance(valid: Verifier, es: seq<Event>, j: nat)
    requires j < |es| && OutputAt(valid, es, j).Issued?
    ensures
      var s := Run(valid, START, es[..j]);
      var n := OutputAt(valid, es, j).token.node;
      && es[j].IssueToken? && es[j].r in s.tasks && s.tasks[es[j].r].Consumed?
      && var c := s.tasks[es[j].r];
      && c.node == n && c.foundAt < j && es[c.foundAt] == FindChallenge(es[j].r)
      && LatestStored(valid, es[..c.foundAt], n) == Some(Challenge(c.text, c.expiresAt))
      && es[j].now < c.expiresAt
      && n in s.db.nodes && valid(s.db.nodes[n].publicKey, c.text, c.signature)
  {
    hide Run, LatestStored, ChallengesOk, HasToken;
    AlwaysTraced(valid, es[..j]);
    StartKeeps();
    RunKeeps(valid, START, es[..j]);
    var s := Run(valid, START, es[..j]);
    IssueFacts(valid, s, es[j]);
    hide Step, Db.Valid;
    var c := s.tasks[es[j].r];
    assert es[..j][..c.foundAt] == es[..c.foundAt];
  }

  lemma IssueFacts(valid: Verifier, s: State, e: Event)
    requires s.db.Valid() && Step(valid, s, e).1.Issued?
    ensures e.IssueToken? && e.r in s.tasks && s.tasks[e.r].Consumed?
    ensures
      var c := s.tasks[e.r];
      e.now < c.expiresAt && valid(c.key, c.text, c.signature) && Step(valid, s, e).1.token.node == c.node
  {
  }

  // --- one-time use -------------------------------------------------------------------------------------

  /** The challenge was stored once, is stored no longer, and will not be stored again. */
  ghost predicate Spent(s: State, text: string) {
    && text in s.given
    && (forall n :: n in s.db.challenges ==> s.db.challenges[n].text != text)
    && (forall r :: r in s.tasks && s.tasks[r].Storing? ==> s.tasks[r].text != text)
  }

  lemma SpentStays(valid: Verifier, s: State, e: Event, text: string)
    requires s.db.Valid() && Spent(s, text)
    ensures Spent(Step(valid, s, e).0, text)
  {
    if TouchesChallenges(e) {
      hide Db.Valid;
    } else {
      OtherChange(valid, s, e);
      hide Db.Valid, Step;
    }
  }

  lemma SpentNotFound(valid: Verifier, s: State, e: Event, text: string, r: nat)
    requires s.db.Valid() && Spent(s, text)
    requires
      var s' := Step(valid, s, e).0;
      r in s'.tasks && WasFound(s'.tasks[r]) && s'.tasks[r].text == text
    ensures r in s.tasks && WasFound(s.tasks[r]) && s.tasks[r].text == text
      && s.tasks[r].foundAt == Step(valid, s, e).0.tasks[r].foundAt
  {
    hide Step;
    FoundStep(valid, s, e, r);
  }

  lemma ConsumeSpends(valid: Verifier, s: State, e: Event)
    requires Inv(s) && e.ConsumeChallenge? && e.r in s.tasks && s.tasks[e.r].Found?
    ensures Spent(Step(valid, s, e).0, s.tasks[e.r].text)
  {
    hide Db.Valid, TasksOk;
  }

  /** From step `i` on, the challenge is spent, and no lookup finds it any more. */
  lemma {:induction false} StaysSpent(valid: Verifier, es: seq<Event>, i: nat, text: string)
    requires i <= |es| && Spent(Run(valid, START, es[..i]), text)
    ensures Spent(Run(valid, START, es), text)
    ensures
      var s := Run(valid, START, es);
      forall r :: r in s.tasks && WasFound(s.tasks[r]) && s.tasks[r].text == text ==> s.tasks[r].foundAt < i
    decreases |es|
  {
    hide Step, Spent;
    if i == |es| {
      assert es[..i] == es;
      AlwaysTraced(valid, es);
      assert forall r :: r in Run(valid, START, es).tasks && WasFound(Run(valid, START, es).tasks[r]) ==>
        LookedUp(valid, es, r, Run(valid, START, es).tasks[r]);
    } else {
      var init := es[..|es| - 1];
      assert init[..i] == es[..i];
      StaysSpent(valid, init, i, text);
      var s, s' := Run(valid, START, init), Run(valid, START, es);
      SpentStays(valid, s, es[|es| - 1], text);
      forall r | r in s'.tasks && WasFound(s'.tasks[r]) && s'.tasks[r].text == text ensures s'.tasks[r].foundAt < i {
        SpentNotFound(valid, s, es[|es| - 1], text, r);
      }
    }
  }

  /** No lookup made after a request deleted a challenge yields a token: whatever is issued
      for that challenge later was looked up before the deletion. */
  lemma NoTokenFromSpentChallenge(valid: Verifier, es: seq<Event>, i: nat, j: nat, text: string)
    requires i < j < |es|
    requires
      var s := Run(valid, START, es[..i]);
      es[i].ConsumeChallenge? && es[i].r in s.tasks && s.tasks[es[i].r].Found? && s.tasks[es[i].r].text == text
    requires OutputAt(valid, es, j).Issued?
    requires
      var s := Run(valid, START, es[..j]);
      es[j].IssueToken? && es[j].r in s.tasks && s.tasks[es[j].r].Consumed? && s.tasks[es[j].r].text == text
    ensures Run(valid, START, es[..j]).tasks[es[j].r].foundAt <= i
  {
    hide Step, Spent;
    StartKeeps();
    RunKeeps(valid, START, es[..i]);
    ConsumeSpends(valid, Run(valid, START, es[..i]), es[i]);
    assert es[..i + 1][..i] == es[..i] && es[..i + 1][i] == es[i];
    assert es[..j][..i + 1] == es[..i + 1];
    StaysSpent(valid, es[..j], i + 1, text);
  }

  /** Step `d` deletes the challenge. */
  ghost predicate DeletesAt(valid: Verifier, es: seq<Event>, d: nat, text: string)
    requires d < |es|
  {
    var s := Run(valid, START, es[..d]);
    es[d].ConsumeChallenge? && es[d].r in s.tasks && s.tasks[es[d].r].Found? && s.tasks[es[d].r].text == text
  }

  /** Step `j` issues a token for the challenge, which its request looked up at step `f`. */
  ghost predicate IssuesAt(valid: Verifier, es: seq<Event>, j: nat, text: string, f: nat)
    requires j < |es|
  {
    var s := Run(valid, START, es[..j]);
    && es[j].IssueToken? && OutputAt(valid, es, j).Issued?
    && es[j].r in s.tasks && s.tasks[es[j].r].Consumed?
    && s.tasks[es[j].r].text == text && s.tasks[es[j].r].foundAt == f
  }

  /** If two tokens are ever issued for one challenge, both lookups came before its first
      deletion, and before every other. */
  lemma TwoTokensLookedUpFirst(valid: Verifier, es: seq<Event>, i: nat, j: nat, d: nat, text: string, f: nat, g: nat)
    requires i < |es| && j < |es| && d < |es|
    requires IssuesAt(valid, es, i, text, f) && IssuesAt(valid, es, j, text, g) && DeletesAt(valid, es, d, text)
    ensures f < d && g < d
  {
    hide Run, Step, IssuesAt, DeletesAt;
    LookedUpFirst(valid, es, i, d, text, f);
    LookedUpFirst(valid, es, j, d, text, g);
  }

  lemma LookedUpFirst(valid: Verifier, es: seq<Event>, j: nat, d: nat, text: string, f: nat)
    requires j < |es| && d < |es| && IssuesAt(valid, es, j, text, f) && DeletesAt(valid, es, d, text)
    ensures f < d
  {
    hide Run, Step, LatestStored;
    TokenProvenance(valid, es, j);
    if d < j {
      NoTokenFromSpentChallenge(valid, es, d, j, text);
    }
  }

  // --- sockets ----------------------------------------------------------------------------------------------

  lemma {:induction false} IssuedSomewhere(valid: Verifier, es: seq<Event>, token: Token)
    requires token in Run(valid, START, es).issued
    ensures exists j :: 0 <= j < |es| && OutputAt(valid, es, j) == Issued(token)
  {
    hide Act;
    var init, e := es[..|es| - 1], es[|es| - 1];
    var s := Run(valid, START, init);
    if token in s.issued {
      IssuedSomewhere(valid, init, token);
      var j :| 0 <= j < |init| && OutputAt(valid, init, j) == Issued(token);
      assert init[..j] == es[..j] && init[j] == es[j];
      assert OutputAt(valid, es, j) == Issued(token);
    } else {
      IssuedStep(valid, s, e, token);
      assert OutputAt(valid, es, |es| - 1) == Issued(token);
    }
  }

  lemma IssuedStep(valid: Verifier, s: State, e: Event, token: Token)
    requires s.db.Valid() && token in Step(valid, s, e).0.issued && token !in s.issued
    ensures Step(valid, s, e).1 == Issued(token)
  {
  }

  /** Every node registered over a socket traces back to a token issued for it, and so to a
      lookup of its latest stored challenge and a signature with its own key. */
  lemma SocketTracesToSignature(valid: Verifier, es: seq<Event>, socket: nat) returns (j: nat)
    requires socket in Run(valid, START, es).registered
    ensures j < |es| && es[j].IssueToken?
    ensures
      var n := Run(valid, START, es).registered[socket];
      var s := Run(valid, START, es[..j]);
      && OutputAt(valid, es, j).Issued? && OutputAt(valid, es, j).token.node == n
      && es[j].r in s.tasks && s.tasks[es[j].r].Consumed?
      && var c := s.tasks[es[j].r];
      && c.foundAt < j && LatestStored(valid, es[..c.foundAt], n) == Some(Challenge(c.text, c.expiresAt))
      && n in s.db.nodes && valid(s.db.nodes[n].publicKey, c.text, c.signature)
  {
    hide Step, Run, LatestStored;
    StartKeeps();
    RunKeeps(valid, START, es);
    var n := Run(valid, START, es).registered[socket];
    assert HasToken(Run(valid, START, es).issued, n);
    var token :| token in Run(valid, START, es).issued && token.node == n;
    IssuedSomewhere(valid, es, token);
    j :| 0 <= j < |es| && OutputAt(valid, es, j) == Issued(token);
    TokenProvenance(valid, es, j);
  }

  /** Up to its deletion a challenge is not protected: two requests that both looked it up
      before either deleted it fare independently, and both get a token if it is unexpired
      and their signatures are valid. */
  lemma BothFoundBothIssue(valid: Verifier, s: State, q: nat, r: nat, now: int, exp: int)
    requires s.db.Valid() && q != r && q in s.tasks && r in s.tasks && s.tasks[q].Found? && s.tasks[r].Found?
    ensures
      var c, d := s.tasks[q], s.tasks[r];
      var s2 := Step(valid, Step(valid, s, ConsumeChallenge(q)).0, ConsumeChallenge(r)).0;
      var (s3, first) := Step(valid, s2, IssueToken(q, now, exp));
      var (_, second) := Step(valid, s3, IssueToken(r, now, exp));
      && (first == Issued(Token(c.node, exp)) <==> now < c.expiresAt && valid(c.key, c.text, c.signature))
      && (second == Issued(Token(d.node, exp)) <==> now < d.expiresAt && valid(d.key, d.text, d.signature))
  {
    var s1 := Step(valid, s, ConsumeChallenge(q)).0;
    var s2 := Step(valid, s1, ConsumeChallenge(r)).0;
    assert r in s1.tasks && s1.tasks[r] == s.tasks[r];
    assert q in s2.tasks && s2.tasks[q] == s1.tasks[q];
    var s3 := Step(valid, s2, IssueToken(q, now, exp)).0;
    assert r in s3.tasks && s3.tasks[r] == s2.tasks[r];
  }

  /** Wherever a node has a challenge stored, two requests can both get to look it up. */
  lemma TwoLookups(valid: Verifier, s: State, q: nat, r: nat, n: Uuid, text: string, signature: string)
    requires s.db.Valid() && MayLogIn(s.db, n) && Get(s.db, n, text).Some?
    requires q != r && q !in s.tasks && r !in s.tasks
    ensures
      var key, exp := s.db.nodes[n].publicKey, s.db.challenges[n].expiresAt;
      var s1 := Step(valid, s, AskVerify(q, n, text, signature)).0;
      && s1.db == s.db
      && var s2 := Step(valid, s1, AskVerify(r, n, text, signature)).0;
      && s2.db == s.db
      && var s3 := Step(valid, s2, FindChallenge(q)).0;
      && s3.db == s.db
      && Step(valid, s3, FindChallenge(r)).0 == s.(steps := s.steps + 4, tasks :=
           s.tasks[q := Found(n, key, text, signature, exp, s.steps + 2)][r := Found(n, key, text, signature, exp,
               s.steps + 3)])
  {
    hide Db.Valid;
  }

  lemma Snoc(valid: Verifier, s: State, es: seq<Event>, e: Event)
    requires s.db.Valid()
    ensures Run(valid, s, es + [e]) == Step(valid, Run(valid, s, es), e).0
  {
    assert (es + [e])[..|es|] == es;
  }

  lemma RunFour(valid: Verifier, s: State, a: Event, b: Event, c: Event, d: Event)
    requires s.db.Valid()
    ensures
      var s1 := Step(valid, s, a).0;
      && s1.db.Valid() && Run(valid, s, [a]) == s1
      && var s2 := Step(valid, s1, b).0;
      && s2.db.Valid() && Run(valid, s, [a, b]) == s2
      && var s3 := Step(valid, s2, c).0;
      && s3.db.Valid() && Run(valid, s, [a, b, c]) == s3
      && Run(valid, s, [a, b, c, d]) == Step(valid, s3, d).0
  {
    hide Step;
    assert Run(valid, s, []) == s && [] + [a] == [a] && [a] + [b] == [a, b] && [a, b] + [c] == [a, b, c];
    assert [a, b, c] + [d] == [a, b, c, d];
    Snoc(valid, s, [], a);
    Snoc(valid, s, [a], b);
    Snoc(valid, s, [a, b], c);
    Snoc(valid, s, [a, b, c], d);
  }

  /** The node is claimed and has a challenge. */
  const PREPARED: State := State(
    Db(map[7 := Row(1, "key", "", false)], map["key" := 7], map[7 := Challenge("c", 60)]), map[], map["c" := 7], {},
      map[], 4)

  const PREPARE: seq<Event> :=
    [AskClaim(0, 1, "key", ""), UpsertNode(0, 7), AskChallenge(1, 7, "c"), StoreChallenge(1, 60)]

  const LOOKUPS: seq<Event> :=
    [AskVerify(2, 7, "c", "sig"), AskVerify(3, 7, "c", "sig"), FindChallenge(2), FindChallenge(3)]

  const ISSUES: seq<Event> :=
    [ConsumeChallenge(2), ConsumeChallenge(3), IssueToken(2, 0, 600), IssueToken(3, 0, 600)]

  /** The state after one of the preparing steps. */
  function Midway(db: Db, tasks: Tasks, given: map<string, Uuid>, steps: nat): State {
    State(db, tasks, given, {}, map[], steps)
  }

  const CLAIMED: Db := Db(map[7 := Row(1, "key", "", false)], map["key" := 7], map[])

  lemma Claims(valid: Verifier)
    ensures
      var s1 := Step(valid, START, PREPARE[0]).0;
      && s1 == Midway(START.db, map[0 := Claiming(1, "key", "", false)], map[], 1)
      && Step(valid, s1, PREPARE[1]).0 == Midway(CLAIMED, map[], map[], 2)
  {
    var s1 := Step(valid, START, PREPARE[0]).0;
    assert s1 == Midway(START.db, map[0 := Claiming(1, "key", "", false)], map[], 1);
    assert s1.tasks - {0} == map[];
  }

  lemma Asks(valid: Verifier)
    ensures
      var s2 := Midway(CLAIMED, map[], map[], 2);
      && s2.db.Valid()
      && var s3 := Step(valid, s2, PREPARE[2]).0;
      && s3 == Midway(CLAIMED, map[1 := Storing(7, "c")], map["c" := 7], 3)
      && Step(valid, s3, PREPARE[3]).0 == PREPARED
  {
    var s3 := Step(valid, Midway(CLAIMED, map[], map[], 2), PREPARE[2]).0;
    assert s3.tasks - {1} == map[];
  }

  lemma Prepares(valid: Verifier)
    ensures Run(valid, START, PREPARE) == PREPARED
  {
    hide Run, Step;
    Claims(valid);
    Asks(valid);
    RunFour(valid, START, PREPARE[0], PREPARE[1], PREPARE[2], PREPARE[3]);
  }

  lemma Looks(valid: Verifier)
    ensures PREPARED.db.Valid()
    ensures Run(valid, PREPARED, LOOKUPS) == PREPARED.(steps := 8, tasks :=
      map[2 := Found(7, "key", "c", "sig", 60, 6), 3 := Found(7, "key", "c", "sig", 60, 7)])
  {
    hide Run, Step;
    TwoLookups(valid, PREPARED, 2, 3, 7, "c", "sig");
    RunFour(valid, PREPARED, LOOKUPS[0], LOOKUPS[1], LOOKUPS[2], LOOKUPS[3]);
  }

  /** A run from the empty database that issues two tokens for one challenge. */
  lemma TwoTokens(valid: Verifier)
    requires valid("key", "c", "sig")
    ensures
      var es := PREPARE + LOOKUPS + ISSUES;
      && IssuesAt(valid, es, 10, "c", 6) && IssuesAt(valid, es, 11, "c", 7)
      && OutputAt(valid, es, 10) == Issued(Token(7, 600)) && OutputAt(valid, es, 11) == Issued(Token(7, 600))
  {
    hide Run, Step;
    var es := PREPARE + LOOKUPS + ISSUES;
    Prepares(valid);
    Looks(valid);
    assert (PREPARE + LOOKUPS)[..4] == PREPARE && (PREPARE + LOOKUPS)[4..] == LOOKUPS;
    RunSplit(valid, START, PREPARE + LOOKUPS, 4);
    var s := Run(valid, START, PREPARE + LOOKUPS);
    assert s.tasks[2].Found? && s.tasks[3].Found?;
    BothFoundBothIssue(valid, s, 2, 3, 0, 600);
    RunFour(valid, s, ISSUES[0], ISSUES[1], ISSUES[2], ISSUES[3]);
    assert es[..10][..8] == PREPARE + LOOKUPS && es[..10][8..] == ISSUES[..2] == [ISSUES[0], ISSUES[1]];
    assert es[..11][..8] == PREPARE + LOOKUPS && es[..11][8..] == ISSUES[..3] == [ISSUES[0], ISSUES[1], ISSUES[2]];
    RunSplit(valid, START, es[..10], 8);
    RunSplit(valid, START, es[..11], 8);
    Deleted(valid, s);
  }

  /** Deleting and issuing leave the other request where it is. */
  lemma Deleted(valid: Verifier, s: State)
    requires s.db.Valid() && 2 in s.tasks && 3 in s.tasks && s.tasks[2].Found? && s.tasks[3].Found?
    ensures
      var s2 := Step(valid, Step(valid, s, ISSUES[0]).0, ISSUES[1]).0;
      var s3 := Step(valid, s2, ISSUES[2]).0;
      && 2 in s2.tasks && s2.tasks[2].Consumed? && s2.tasks[2].text == s.tasks[2].text
        && s2.tasks[2].foundAt == s.tasks[2].foundAt
      && 3 in s3.tasks && s3.tasks[3].Consumed? && s3.tasks[3].text == s.tasks[3].text
        && s3.tasks[3].foundAt == s.tasks[3].foundAt
  {
  }

  /** Two users race for a new key: the second is told it succeeded, with the first one's
      node. */
  lemma ClaimRace(valid: Verifier)
    ensures
      var s1 := Step(valid, START, AskClaim(0, 1, "key", "")).0;
      && s1.db.Valid()
      && var s2 := Step(valid, s1, AskClaim(1, 2, "key", "")).0;
      && s2.db.Valid()
      && var s3 := Step(valid, s2, UpsertNode(0, 7)).0;
      && s3.db.Valid() && 1 in s3.tasks && s3.tasks[1] == Claiming(2, "key", "", false)
      && var (s4, out) := Step(valid, s3, UpsertNode(1, 8));
      && out == Claimed(7) && 7 in s4.db.nodes && s4.db.nodes[7].owner == 1
  {
  }

  // --- revocation ------------------------------------------------------------------------------------------------

  predicate Concerns(p: Task, n: Uuid) {
    (p.Checked? || WasFound(p) || p.Admitted? || p.Confirmed?) && p.node == n
  }

  /** The node is revoked, and no login of it is under way. */
  ghost predicate LockedOut(s: State, n: Uuid) {
    && n in s.db.nodes && s.db.nodes[n].revoked
    && forall r :: r in s.tasks ==> !Concerns(s.tasks[r], n)
  }

  function SocketsOf(s: State, n: Uuid): set<nat> {
    set r | r in s.registered && s.registered[r] == n
  }

  lemma LockedOutTask(valid: Verifier, s: State, e: Event, n: Uuid, r: nat)
    requires s.db.Valid() && LockedOut(s, n) && r in Step(valid, s, e).0.tasks
    ensures !Concerns(Step(valid, s, e).0.tasks[r], n)
  {
    hide Db.Valid;
  }

  lemma LockedOutRow(valid: Verifier, s: State, e: Event, n: Uuid)
    requires s.db.Valid() && n in s.db.nodes && s.db.nodes[n].revoked && e != SetRevoked(n, false)
    ensures n in Step(valid, s, e).0.db.nodes && Step(valid, s, e).0.db.nodes[n].revoked
  {
    if e.UpsertNode? || e.SetRevoked? {
    } else {
      NodesUntouched(valid, s, e);
      hide Db.Valid, Step;
    }
  }

  lemma LockedOutOutput(valid: Verifier, s: State, e: Event, n: Uuid)
    requires s.db.Valid() && LockedOut(s, n)
    ensures !(Step(valid, s, e).1.Issued? && Step(valid, s, e).1.token.node == n)
    ensures forall r :: r in SocketsOf(Step(valid, s, e).0, n) ==> r in SocketsOf(s, n)
  {
    hide Step;
    if Step(valid, s, e).1.Issued? {
      IssueFacts(valid, s, e);
      assert Concerns(s.tasks[e.r], s.tasks[e.r].node);
    }
    forall r | r in SocketsOf(Step(valid, s, e).0, n) ensures r in SocketsOf(s, n) {
      RegisteredStep(valid, s, e, r);
    }
  }

  /** Once a node is revoked and its logins under way are over, no run that leaves it revoked
      issues it a token or registers a socket for it. */
  lemma {:induction false} RevokedStaysOut(valid: Verifier, s: State, es: seq<Event>, n: Uuid)
    requires s.db.Valid() && LockedOut(s, n) && SetRevoked(n, false) !in es
    ensures LockedOut(Run(valid, s, es), n)
    ensures forall r :: r in SocketsOf(Run(valid, s, es), n) ==> r in SocketsOf(s, n)
    ensures forall i :: 0 <= i < |es| ==>
      var out := Step(valid, Run(valid, s, es[..i]), es[i]).1;
      !(out.Issued? && out.token.node == n)
  {
    hide Step, SocketsOf, Concerns;
    if es != [] {
      var init, e := es[..|es| - 1], es[|es| - 1];
      assert forall i :: 0 <= i < |init| ==> init[i] == es[i];
      assert e in es;
      RevokedStaysOut(valid, s, init, n);
      var t := Run(valid, s, init);
      LockedOutRow(valid, t, e, n);
      forall r | r in Step(valid, t, e).0.tasks ensures !Concerns(Step(valid, t, e).0.tasks[r], n) {
        LockedOutTask(valid, t, e, n, r);
      }
      LockedOutOutput(valid, t, e, n);
      forall i | 0 <= i < |es| ensures
        var out := Step(valid, Run(valid, s, es[..i]), es[i]).1;
        !(out.Issued? && out.token.node == n)
      {
        if i < |init| {
          assert init[..i] == es[..i];
        }
      }
    }
  }
}
