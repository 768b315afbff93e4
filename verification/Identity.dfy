/** Claiming a node, proving its identity, and registering its socket, with the SQL
    statements of concurrent requests interleaving freely.  `valid` decides signatures. */
module Identity {
  import opened Protocol
  import opened Tables

  type Verifier = (string, string, string) -> bool

  datatype Token = Token(node: Uuid, expiresAt: int)

  /** A request between two of its statements.  `foundAt` is the step of the challenge
      lookup; no handler reads it. */
  datatype Task =
    | Storing(node: Uuid, text: string)
    | Checked(node: Uuid, key: string, text: string, signature: string)
    | Found(node: Uuid, key: string, text: string, signature: string, expiresAt: int, foundAt: nat)
    | Consumed(node: Uuid, key: string, text: string, signature: string, expiresAt: int, foundAt: nat)
    | Claiming(user: Uuid, key: string, hostname: string, seen: bool)
    | Admitted(node: Uuid)
    | Confirmed(node: Uuid)

  type Tasks = map<nat, Task>

  /** `given` maps each challenge handed out to the node it was asked for, `registered`
      sockets to nodes; `steps` counts. */
  datatype State = State(
    db: Db, tasks: Tasks, given: map<string, Uuid>, issued: set<Token>, registered: map<nat, Uuid>, steps: nat)

  datatype Event =
    | AskChallenge(r: nat, node: Uuid, text: string)
    | StoreChallenge(r: nat, expiresAt: int)
    | AskVerify(r: nat, node: Uuid, text: string, signature: string)
    | FindChallenge(r: nat)
    | ConsumeChallenge(r: nat)
    | IssueToken(r: nat, now: int, expiresAt: int)
    | AskClaim(r: nat, user: Uuid, key: string, hostname: string)
    | UpsertNode(r: nat, newId: Uuid)
    | Admit(r: nat, token: Token, claimed: Uuid)  // an unexpired token arrives on a socket
    | Confirm(r: nat)
    | Register(r: nat)
    | Abort(r: nat)  // the database fails, or the client is gone
    | PurgeExpired(now: int)
    | SetRevoked(node: Uuid, revoked: bool)

  datatype Output = Nothing | Issued(token: Token) | Claimed(node: Uuid) | Conflict | Rejected

  /** The state after a step, with its output; a step that does not apply changes nothing. */
  function Step(valid: Verifier, s: State, e: Event): (State, Output)
    requires s.db.Valid()
  {
    var (s', out) := Act(valid, s, e);
    (s'.(steps := s.steps + 1), out)
  }

  function Act(valid: Verifier, s: State, e: Event): (State, Output)
    requires s.db.Valid()
  {
    match e
    case AskChallenge(r, node, text) => DoAskChallenge(s, r, node, text)
    case StoreChallenge(r, expiresAt) => DoStore(s, r, expiresAt)
    case AskVerify(r, node, text, signature) => DoAskVerify(s, r, node, text, signature)
    case FindChallenge(r) => DoFind(s, r)
    case ConsumeChallenge(r) => DoConsume(s, r)
    case IssueToken(r, now, expiresAt) => DoIssue(valid, s, r, now, expiresAt)
    case AskClaim(r, user, key, hostname) => DoAskClaim(s, r, user, key, hostname)
    case UpsertNode(r, newId) => DoUpsert(s, r, newId)
    case Admit(r, token, claimed) => DoAdmit(s, r, token, claimed)
    case Confirm(r) => DoConfirm(s, r)
    case Register(r) =>
      if r in s.tasks && s.tasks[r].Confirmed? then
        (s.(tasks := s.tasks - {r}, registered := s.registered[r := s.tasks[r].node]), Nothing)
      else (s, Nothing)
    case Abort(r) => (s.(tasks := s.tasks - {r}), Nothing)
    case PurgeExpired(now) => (s.(db := Purge(s.db, now)), Nothing)
    case SetRevoked(node, revoked) =>
      if node in s.db.nodes then
        (s.(db := s.db.(nodes := s.db.nodes[node := s.db.nodes[node].(revoked := revoked)])), Nothing)
      else (s, Nothing)
  }

  /** Challenges are random, hence fresh; one for an unknown or revoked node is handed out
      but not stored. */
  function DoAskChallenge(s: State, r: nat, node: Uuid, text: string): (State, Output) {
    if r in s.tasks || text in s.given then (s, Nothing)
    else
      var s' := s.(given := s.given[text := node]);
      (if MayLogIn(s.db, node) then s'.(tasks := s.tasks[r := Storing(node, text)]) else s', Nothing)
  }

  function DoStore(s: State, r: nat, expiresAt: int): (State, Output) {
    if r !in s.tasks || !s.tasks[r].Storing? then (s, Nothing)
    else
      var put := Put(s.db, s.tasks[r].node, Challenge(s.tasks[r].text, expiresAt));
      (s.(tasks := s.tasks - {r}, db := if put.Some? then put.value else s.db), Nothing)
  }

  function DoAskVerify(s: State, r: nat, node: Uuid, text: string, signature: string): (State, Output) {
    if r in s.tasks then (s, Nothing)
    else if !MayLogIn(s.db, node) then (s, Rejected)
    else (s.(tasks := s.tasks[r := Checked(node, s.db.nodes[node].publicKey, text, signature)]), Nothing)
  }

  function DoFind(s: State, r: nat): (State, Output) {
    if r !in s.tasks || !s.tasks[r].Checked? then (s, Nothing)
    else
      var c := s.tasks[r];
      var found := Get(s.db, c.node, c.text);
      if found == None then (s.(tasks := s.tasks - {r}), Rejected)
      else (s.(tasks := s.tasks[r := Found(c.node, c.key, c.text, c.signature, found.value.expiresAt, s.steps)]),
            Nothing)
  }

  function DoConsume(s: State, r: nat): (State, Output) {
    if r !in s.tasks || !s.tasks[r].Found? then (s, Nothing)
    else
      var c := s.tasks[r];
      (s.(db := Consume(s.db, c.node, c.text),
          tasks := s.tasks[r := Consumed(c.node, c.key, c.text, c.signature, c.expiresAt, c.foundAt)]), Nothing)
  }

  function DoIssue(valid: Verifier, s: State, r: nat, now: int, expiresAt: int): (State, Output) {
    if r !in s.tasks || !s.tasks[r].Consumed? then (s, Nothing)
    else
      var c := s.tasks[r];
      var s' := s.(tasks := s.tasks - {r});
      if c.expiresAt <= now || !valid(c.key, c.text, c.signature) then (s', Rejected)
      else (s'.(issued := s.issued + {Token(c.node, expiresAt)}), Issued(Token(c.node, expiresAt)))
  }

  function DoAskClaim(s: State, r: nat, user: Uuid, key: string, hostname: string): (State, Output)
    requires s.db.Valid()
  {
    if r in s.tasks then (s, Nothing)
    else if key in s.db.byKey && s.db.nodes[s.db.byKey[key]].owner != user then (s, Conflict)
    else (s.(tasks := s.tasks[r := Claiming(user, key, hostname, key in s.db.byKey)]), Nothing)
  }

  function DoUpsert(s: State, r: nat, newId: Uuid): (State, Output)
    requires s.db.Valid()
  {
    if r !in s.tasks || !s.tasks[r].Claiming? || newId in s.db.nodes then (s, Nothing)
    else
      var c := s.tasks[r];
      var (db, n) := Claim(s.db, c.user, c.key, c.hostname, newId);
      (s.(db := db, tasks := s.tasks - {r}), Claimed(n))
  }

  /** Only the server's own tokens decode; the token must name the node the socket claims. */
  function DoAdmit(s: State, r: nat, token: Token, claimed: Uuid): (State, Output) {
    if r in s.tasks then (s, Nothing)
    else if token !in s.issued || !MayLogIn(s.db, token.node) || token.node != claimed then (s, Rejected)
    else (s.(tasks := s.tasks[r := Admitted(claimed)]), Nothing)
  }

  function DoConfirm(s: State, r: nat): (State, Output) {
    if r !in s.tasks || !s.tasks[r].Admitted? then (s, Nothing)
    else if !MayLogIn(s.db, s.tasks[r].node) then (s.(tasks := s.tasks - {r}), Rejected)
    else (s.(tasks := s.tasks[r := Confirmed(s.tasks[r].node)]), Nothing)
  }

  // --- invariant ----------------------------------------------------------------------------------

  predicate WasFound(p: Task) {
    p.Found? || p.Consumed?
  }

  /** A challenge waits to be stored, or is stored, or was, for the node it was given to. */
  ghost predicate ChallengesOk(challenges: map<Uuid, Challenge>, tasks: Tasks, given: map<string, Uuid>) {
    && (forall n :: n in challenges ==> challenges[n].text in given && given[challenges[n].text] == n)
    && (forall r :: r in tasks && (tasks[r].Storing? || WasFound(tasks[r])) ==>
        tasks[r].text in given && given[tasks[r].text] == tasks[r].node)
    && (forall q, r :: q in tasks && r in tasks && tasks[q].Storing? && tasks[r].Storing? && q != r ==>
        tasks[q].text != tasks[r].text)
    && (forall q, r :: q in tasks && r in tasks && tasks[q].Storing? && WasFound(tasks[r]) ==>
        tasks[q].text != tasks[r].text)
    && (forall n, r :: n in challenges && r in tasks && tasks[r].Storing? ==> tasks[r].text != challenges[n].text)
  }

  /** What a request learned from the tables or from its token still holds. */
  ghost predicate TaskOk(db: Db, issued: set<Token>, p: Task) {
    match p
    case Storing(_, _) => true
    case Checked(node, key, _, _) => HasKey(db, node, key)
    case Found(node, key, _, _, _, _) => HasKey(db, node, key)
    case Consumed(node, key, _, _, _, _) => HasKey(db, node, key)
    case Claiming(user, key, _, seen) => seen ==> Owns(db, user, key)
    case Admitted(node) => HasToken(issued, node)
    case Confirmed(node) => HasToken(issued, node)
  }

  predicate HasKey(db: Db, node: Uuid, key: string) {
    node in db.nodes && db.nodes[node].publicKey == key
  }

  predicate Owns(db: Db, user: Uuid, key: string) {
    key in db.byKey && db.byKey[key] in db.nodes && db.nodes[db.byKey[key]].owner == user
  }

  ghost predicate TasksOk(db: Db, tasks: Tasks, issued: set<Token>, registered: map<nat, Uuid>) {
    && (forall r :: r in tasks ==> TaskOk(db, issued, tasks[r]))
    && (forall r :: r in registered ==> HasToken(issued, registered[r]))
  }

  ghost predicate HasToken(issued: set<Token>, node: Uuid) {
    exists token :: token in issued && token.node == node
  }

  ghost predicate Inv(s: State) {
    && s.db.Valid()
    && ChallengesOk(s.db.challenges, s.tasks, s.given)
    && TasksOk(s.db, s.tasks, s.issued, s.registered)
  }
}
