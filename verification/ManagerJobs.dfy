/**
 * The challenge manager's work, cut into jobs of one transaction, pipeline or plain read each. A
 * job's transaction function says what to read next and what to commit; what job may follow is a
 * relation, since the clock, the database and the merge decide part of it.
 */
module ManagerJobs {
  import opened Options
  import opened RedisStore
  import opened ChallengeStage
  import opened Transactions

  const DEFERRED_JOIN_MAX_RETRIES := 10
  const MAX_STAGE_PROCESSING_TIME := 30000

  datatype Joiner = Joiner(c: ClientId, token: int, participant: bool)

  /** An update request: entry mode, and a stage's new status. */
  datatype Update = Update(entryMode: bool, stage: Option<StageUpdate>)

  datatype ClientStatus = ClientActive | ClientIdle | ClientDisconnected

  /** What follows a stage's completion: nothing, a look for active clients, or the end of the challenge's data. */
  datatype Then = ThenStop | ThenCheck | ThenDelete(party: Option<Party>)

  datatype Job =
    // joining
    | Start(joiner: Joiner, party: Party, stage: int, created: Uuid)
    | Activate(u: Uuid, joiner: Joiner, party: Party, stage: int)
    | AbortCreate(u: Uuid, party: Party)
    | Join(u: Uuid, joiner: Joiner, retries: nat)
    | CheckAdd(u: Uuid, joiner: Joiner)
    | Add(u: Uuid, joiner: Joiner)
    // updating
    | CheckUpdate(u: Uuid, c: ClientId, update: Update, retriable: int -> bool)
    | ApplyUpdate(u: Uuid, c: ClientId, update: Update, retriable: int -> bool)
    | MarkProcessing(u: Uuid, stage: int, attempt: Option<int>, now: int)
    // leaving
    | Finish(u: Uuid, c: ClientId, soft: bool, reported: bool)
    | OnEvent(c: ClientId, token: int, status: ClientStatus)
    | SetActive(u: Uuid, c: ClientId, token: int)
    | SetInactive(u: Uuid, c: ClientId, token: int)
    | Remove(u: Uuid, c: ClientId, token: int)
    // completing a stage
    | Load(u: Uuid, stage: int, attempt: Option<int>, andThen: Then)
    | ClearStageEnd(u: Uuid, stage: int, attempt: Option<int>, andThen: Then)
    | Claim(u: Uuid, stage: int, attempt: Option<int>, now: int, andThen: Then)
    | Merge(u: Uuid, stage: int, attempt: Option<int>, completed: Change<bool>, andThen: Then)
    // timeouts and cleaning up
    | Tick
    | TickState(u: Uuid, timeout: Timeout)
    | ClearStale(u: Uuid)
    | StageEndTimer(u: Uuid)
    | CheckActive(u: Uuid)
    | Cleanup(u: Uuid, due: Option<Timeout>, now: int)
    | OwnerLoad(u: Uuid)
    | OwnerDelete(u: Uuid, ofParty: Option<Party>)
    | Delete(u: Uuid, ofParty: Option<Party>)

  // ---------------------------------------------------------------- what a transaction has read

  /** The last value read under a key. */
  function Seen(obs: seq<Obs>, k: Key): Option<Val> {
    if obs == [] then None
    else if obs[|obs| - 1].key == k then Some(obs[|obs| - 1].val)
    else Seen(obs[..|obs| - 1], k)
  }

  function HashSeen(obs: seq<Obs>, u: Uuid): Option<Hash> {
    var v := Seen(obs, KeyHash(u)); if v.Some? && v.value.ValHash? then Some(v.value.hash) else None
  }

  function ClientsSeen(obs: seq<Obs>, u: Uuid): Option<map<ClientId, Client>> {
    var v := Seen(obs, KeyClients(u)); if v.Some? && v.value.ValClients? then Some(v.value.clients) else None
  }

  function ProcessedSeen(obs: seq<Obs>, u: Uuid): Option<set<(int, Option<int>)>> {
    var v := Seen(obs, KeyProcessed(u)); if v.Some? && v.value.ValProcessed? then Some(v.value.processed) else None
  }

  function TimeoutsSeen(obs: seq<Obs>): Option<map<Uuid, Timeout>> {
    var v := Seen(obs, KeyTimeouts); if v.Some? && v.value.ValTimeouts? then Some(v.value.timeouts) else None
  }

  function PointerSeen(obs: seq<Obs>, c: ClientId): Option<Option<Uuid>> {
    var v := Seen(obs, KeyPointer(c)); if v.Some? && v.value.ValPointer? then Some(v.value.pointer) else None
  }

  function ChallengesSeen(obs: seq<Obs>, p: Party): Option<seq<Uuid>> {
    var v := Seen(obs, KeyParty(p)); if v.Some? && v.value.ValParty? then Some(v.value.challenges) else None
  }

  // ---------------------------------------------------------------- pieces of the transactions

  function BirthPatch(stage: int): Patch {
    Patch(Put(INITIALIZING), Put(NO_TIMEOUT), Put(stage), Keep, Put(false), Keep, Keep)
  }

  function ActivePatch(stage: int, party: Party): Patch {
    Patch(Put(ACTIVE), Keep, Put(stage), Clear, Put(false), Keep, Put(party))
  }

  const CLEANUP_PATCH := Patch(Put(CLEANUP), Keep, Keep, Keep, Keep, Clear, Keep)

  function ProcessingPatch(now: int): Patch {
    NO_CHANGE.(processing := Put(now))
  }

  /** A full read of such a hash fails: it has fields, but no party among them. */
  predicate Malformed(h: Hash) {
    h != NO_HASH && h.party.None?
  }

  function TimeoutStateOf(h: Hash): TimeoutState {
    h.timeoutState.GetOr(NO_TIMEOUT)
  }

  predicate AllInactive(clients: map<ClientId, Client>) {
    forall c :: c in clients ==> !clients[c].active
  }

  /** The record of a client that joins; one that rejoins keeps its last completed stage. */
  function Joined(clients: map<ClientId, Client>, j: Joiner, stage: int, attempt: Option<int>): Client {
    if j.c in clients then
      clients[j.c].(stage := stage, attempt := attempt, status := ENTERED, token := j.token, active := true)
    else Client(j.token, j.participant, true, stage, attempt, ENTERED, UNKNOWN_STAGE, None)
  }

  function ClearIfDue(u: Uuid, h: Hash): seq<Write> {
    if h.timeoutState == Some(CLEANUP_DUE) then [ClearTimeout(u)] else []
  }

  datatype Decision = Undecided(key: Key) | CreateNew(pop: bool) | JoinLater(last: Uuid) | JoinNow(last: Uuid)

  function Decide(party: Party, stage: int, obs: seq<Obs>): Decision {
    var all := ChallengesSeen(obs, party);
    if all.None? then Undecided(KeyParty(party))
    else if all.value == [] then CreateNew(false)
    else
      var last := all.value[|all.value| - 1];
      var hash := HashSeen(obs, last);
      if hash.None? then Undecided(KeyHash(last))
      else
        var h := hash.value;
        if h.state.None? || h.state == Some(CLEANUP) || h.completed.None? || h.stage.None? then CreateNew(true)
        else if h.completed.value || TimeoutStateOf(h) == CHALLENGE_END then CreateNew(false)
        else if stage != UNKNOWN_STAGE && stage < h.stage.value then CreateNew(false)
        else if h.state == Some(INITIALIZING) then JoinLater(last)
        else JoinNow(last)
  }

  function ActStart(joiner: Joiner, party: Party, stage: int, created: Uuid, obs: seq<Obs>): Action {
    match Decide(party, stage, obs)
    case Undecided(key) => Read(key)
    case CreateNew(pop) =>
      Commit((if pop then [PopParty(party)] else []) + [PushParty(party, created), SetFields(created, BirthPatch(stage))])
    case JoinLater(last) =>
      var hash := HashSeen(obs, last);
      if hash.None? then Read(KeyHash(last)) else Commit(ClearIfDue(last, hash.value))
    case JoinNow(last) =>
      var hash := HashSeen(obs, last); var clients := ClientsSeen(obs, last);
      if hash.None? then Read(KeyHash(last))
      else if clients.None? then Read(KeyClients(last))
      else
        var h := hash.value;
        Commit([SetClient(last, joiner.c, Joined(clients.value, joiner, h.stage.GetOr(UNKNOWN_STAGE), h.attempt)),
                RefreshSession] + ClearIfDue(last, h))
  }

  function ActActivate(u: Uuid, joiner: Joiner, party: Party, stage: int, obs: seq<Obs>): Action {
    var clients := ClientsSeen(obs, u);
    if clients.None? then Read(KeyClients(u))
    else
      Commit([SetFields(u, ActivePatch(stage, party)), SetClient(u, joiner.c, Joined(clients.value, joiner, stage, None))])
  }

  function ActJoin(u: Uuid, joiner: Joiner, obs: seq<Obs>): Action {
    var hash := HashSeen(obs, u); var clients := ClientsSeen(obs, u);
    if hash.None? then Read(KeyHash(u))
    else if hash.value.state.None? || hash.value.state == Some(CLEANUP) then Throw
    else if hash.value.state != Some(ACTIVE) then Commit([])
    else if clients.None? then Read(KeyClients(u))
    else
      Commit([SetClient(u, joiner.c,
                        Joined(clients.value, joiner, hash.value.stage.GetOr(UNKNOWN_STAGE), hash.value.attempt))])
  }

  function ActAdd(u: Uuid, joiner: Joiner, obs: seq<Obs>): Action {
    var hash := HashSeen(obs, u); var clients := ClientsSeen(obs, u);
    if hash.None? then Read(KeyHash(u))
    else if clients.None? then Read(KeyClients(u))
    else if Malformed(hash.value) then Throw
    else if hash.value.state != Some(ACTIVE) then Commit([])
    else
      Commit([SetClient(u, joiner.c,
                        Joined(clients.value, joiner, hash.value.stage.GetOr(UNKNOWN_STAGE), hash.value.attempt))]
             + (if AllInactive(clients.value) then ClearIfDue(u, hash.value) else []))
  }

  /** What a stage update comes to, once the hash and the clients are read. */
  function StageOutcome(
      u: Uuid, c: ClientId, update: StageUpdate, retriable: int -> bool, h: Hash, clients: map<ClientId, Client>): Outcome
  {
    UpdateStage(retriable, PositionOf(h), TimeoutStateOf(h), clients, c, update)
  }

  function StageWrites(u: Uuid, c: ClientId, o: Outcome): seq<Write> {
    match o
    case Rejected => []
    case Applied(client, patch, _, timeout) =>
      (match timeout
       case LeaveTimeout => []
       case ClearIt => [ClearTimeout(u)]
       case AwaitOthers => [SetTimeout(u, STAGE_END, Timeout(0))])
      + [SetClient(u, c, client)]
      + (if patch == NO_CHANGE then [] else [SetFields(u, patch)])
  }

  function ActUpdate(u: Uuid, c: ClientId, update: Update, retriable: int -> bool, obs: seq<Obs>): Action {
    var hash := HashSeen(obs, u); var clients := ClientsSeen(obs, u);
    if hash.None? then Read(KeyHash(u))
    else if hash.value == NO_HASH then Commit([])
    else if Malformed(hash.value) then Throw
    else
      var active := ClearIfDue(u, hash.value) + [RefreshSession];
      if update.entryMode || update.stage.None? then Commit(active)
      else if update.stage.value.stage < hash.value.stage.GetOr(UNKNOWN_STAGE) then Commit(active)
      else if clients.None? then Read(KeyClients(u))
      else Commit(active + StageWrites(u, c, StageOutcome(u, c, update.stage.value, retriable, hash.value, clients.value)))
  }

  function ActFinish(u: Uuid, c: ClientId, soft: bool, reported: bool, obs: seq<Obs>): Action {
    var pointer := PointerSeen(obs, c); var hash := HashSeen(obs, u); var clients := ClientsSeen(obs, u);
    if pointer.None? then Read(KeyPointer(c))
    else if pointer.value != Some(u) then Commit([])
    else if hash.None? then Read(KeyHash(u))
    else if Malformed(hash.value) then Throw
    else if hash.value.state != Some(ACTIVE) then Commit([RemoveClient(u, c)])
    else if clients.None? then Read(KeyClients(u))
    else if c !in clients.value then Commit([RemoveClient(u, c), RefreshSession])
    else
      var definite := (!soft && clients.value[c].participant) || reported;
      Commit([RemoveClient(u, c), RefreshSession,
              if |clients.value| == 1 || definite || TimeoutStateOf(hash.value) == CHALLENGE_END
              then SetTimeout(u, CHALLENGE_END, Timeout(3)) else SetTimeout(u, CLEANUP_DUE, Timeout(1))])
  }

  function ActSetActive(u: Uuid, c: ClientId, token: int, obs: seq<Obs>): Action {
    var pointer := PointerSeen(obs, c); var hash := HashSeen(obs, u); var clients := ClientsSeen(obs, u);
    if pointer.None? then Read(KeyPointer(c))
    else if hash.None? then Read(KeyHash(u))
    else if clients.None? then Read(KeyClients(u))
    else if Malformed(hash.value) then Throw
    else if c !in clients.value || clients.value[c].token != token then Commit([])
    else if pointer.value != Some(u) || hash.value == NO_HASH then Commit([RemoveClient(u, c)])
    else if clients.value[c].active then Commit([])
    else Commit([SetClient(u, c, clients.value[c].(active := true))] + ClearIfDue(u, hash.value))
  }

  function ActSetInactive(u: Uuid, c: ClientId, token: int, obs: seq<Obs>): Action {
    var pointer := PointerSeen(obs, c); var hash := HashSeen(obs, u); var clients := ClientsSeen(obs, u);
    if pointer.None? then Read(KeyPointer(c))
    else if hash.None? then Read(KeyHash(u))
    else if clients.None? then Read(KeyClients(u))
    else if Malformed(hash.value) then Throw
    else if c !in clients.value then Commit([RemoveClient(u, c)])
    else if clients.value[c].token != token then Commit([])
    else if pointer.value != Some(u) || hash.value == NO_HASH then Commit([RemoveClient(u, c)])
    else if !clients.value[c].active then Commit([])
    else
      var idle := clients.value[c].(active := false);
      Commit([SetClient(u, c, idle)]
             + (if AllInactive(clients.value[c := idle]) && TimeoutStateOf(hash.value) == NO_TIMEOUT
                then [SetTimeout(u, CLEANUP_DUE, Timeout(0))] else []))
  }

  function ActRemove(u: Uuid, c: ClientId, token: int, obs: seq<Obs>): Action {
    var hash := HashSeen(obs, u); var clients := ClientsSeen(obs, u);
    if clients.None? then Read(KeyClients(u))
    else if c !in clients.value || clients.value[c].token != token then Commit([])
    else if hash.None? then Read(KeyHash(u))
    else if hash.value.state.None? || hash.value.state == Some(CLEANUP) then Commit([RemoveClient(u, c)])
    else
      Commit([RemoveClient(u, c)] + (if |clients.value| <= 1 then [SetTimeout(u, CLEANUP_DUE, Timeout(3))] else []))
  }

  function ActLoad(u: Uuid, stage: int, obs: seq<Obs>): Action {
    if stage == UNKNOWN_STAGE then Commit([]) else ActOwnerLoad(u, obs)
  }

  function ActOwnerLoad(u: Uuid, obs: seq<Obs>): Action {
    var hash := HashSeen(obs, u);
    if hash.None? then Read(KeyHash(u)) else if Malformed(hash.value) then Throw else Commit([])
  }

  function ActClaim(u: Uuid, stage: int, attempt: Option<int>, now: int, obs: seq<Obs>): Action {
    var processed := ProcessedSeen(obs, u);
    if processed.None? then Read(KeyProcessed(u))
    else if (stage, attempt) in processed.value then Commit([])
    else Commit([SetProcessed(u, stage, attempt), SetFields(u, ProcessingPatch(now))])
  }

  function ActCheckActive(u: Uuid, obs: seq<Obs>): Action {
    var hash := HashSeen(obs, u); var clients := ClientsSeen(obs, u); var timeouts := TimeoutsSeen(obs);
    if hash.None? then Read(KeyHash(u))
    else if clients.None? then Read(KeyClients(u))
    else if timeouts.None? then Read(KeyTimeouts)
    else if u in timeouts.value && TimeoutStateOf(hash.value) != NO_TIMEOUT then Commit([])
    else if AllInactive(clients.value) then Commit([SetTimeout(u, CLEANUP_DUE, Timeout(3))])
    else Commit([])
  }

  datatype CleanupStatus = OK | ACTIVE_CLIENTS | PROCESSING_STAGE | CHALLENGE_NOT_FOUND | CHALLENGE_FAILED_CLEANUP

  function CleanupOutcome(h: Hash, clients: map<ClientId, Client>, due: Option<Timeout>, now: int): CleanupStatus {
    if h.state.None? then CHALLENGE_NOT_FOUND
    else if h.state == Some(CLEANUP) then CHALLENGE_FAILED_CLEANUP
    else if h.processing.Some? && now - h.processing.value < MAX_STAGE_PROCESSING_TIME then PROCESSING_STAGE
    else if (TimeoutStateOf(h) == NO_TIMEOUT || TimeoutStateOf(h) == STAGE_END) && due.Some? then ACTIVE_CLIENTS
    else if due.None? || due.value.maxRetryAttempts == 0 || clients == map[] then OK
    else ACTIVE_CLIENTS
  }

  function CleanupWrites(u: Uuid, h: Hash, due: Option<Timeout>, status: CleanupStatus): seq<Write> {
    match status
    case OK => [SetFields(u, CLEANUP_PATCH)]
    case PROCESSING_STAGE =>
      if due.Some? then [SetTimeout(u, TimeoutStateOf(h), due.value)]
      else [SetTimeout(u, if TimeoutStateOf(h) == NO_TIMEOUT then CHALLENGE_END else TimeoutStateOf(h), Timeout(0))]
    case ACTIVE_CLIENTS =>
      if TimeoutStateOf(h) == NO_TIMEOUT || TimeoutStateOf(h) == STAGE_END then []
      else if due.Some? && due.value.maxRetryAttempts > 0 then
        [SetTimeout(u, TimeoutStateOf(h), Timeout(due.value.maxRetryAttempts - 1))]
      else []
    case _ => []
  }

  function ActCleanup(u: Uuid, due: Option<Timeout>, now: int, obs: seq<Obs>): Action {
    var hash := HashSeen(obs, u); var clients := ClientsSeen(obs, u);
    if hash.None? then Read(KeyHash(u))
    else if clients.None? then Read(KeyClients(u))
    else Commit(CleanupWrites(u, hash.value, due, CleanupOutcome(hash.value, clients.value, due, now)))
  }

  // ---------------------------------------------------------------- the transaction function of a job

  function Act(j: Job, obs: seq<Obs>): Action {
    match j
    case Start(joiner, party, stage, created) => ActStart(joiner, party, stage, created, obs)
    case Activate(u, joiner, party, stage) => ActActivate(u, joiner, party, stage, obs)
    case AbortCreate(u, party) => Commit([DeleteData(u, Some(party))])
    case Join(u, joiner, _) => ActJoin(u, joiner, obs)
    case CheckAdd(u, joiner) => if PointerSeen(obs, joiner.c).None? then Read(KeyPointer(joiner.c)) else Commit([])
    case Add(u, joiner) => ActAdd(u, joiner, obs)
    case CheckUpdate(u, c, _, _) => if PointerSeen(obs, c).None? then Read(KeyPointer(c)) else Commit([])
    case ApplyUpdate(u, c, update, retriable) => ActUpdate(u, c, update, retriable, obs)
    case MarkProcessing(u, _, _, now) => Commit([SetFields(u, ProcessingPatch(now))])
    case Finish(u, c, soft, reported) => ActFinish(u, c, soft, reported, obs)
    case OnEvent(c, _, _) => if PointerSeen(obs, c).None? then Read(KeyPointer(c)) else Commit([])
    case SetActive(u, c, token) => ActSetActive(u, c, token, obs)
    case SetInactive(u, c, token) => ActSetInactive(u, c, token, obs)
    case Remove(u, c, token) => ActRemove(u, c, token, obs)
    case Load(u, stage, _, _) => ActLoad(u, stage, obs)
    case ClearStageEnd(u, _, _, _) => Commit([ClearTimeout(u)])
    case Claim(u, stage, attempt, now, _) => ActClaim(u, stage, attempt, now, obs)
    case Merge(u, _, _, completed, _) => Commit([SetFields(u, NO_CHANGE.(processing := Clear, completed := completed))])
    case Tick => if TimeoutsSeen(obs).None? then Read(KeyTimeouts) else Commit([])
    case TickState(u, _) => if HashSeen(obs, u).None? then Read(KeyHash(u)) else Commit([])
    case ClearStale(u) => Commit([ClearTimeout(u)])
    case StageEndTimer(u) => if ClientsSeen(obs, u).None? then Read(KeyClients(u)) else Commit([])
    case CheckActive(u) => ActCheckActive(u, obs)
    case Cleanup(u, due, now) => ActCleanup(u, due, now, obs)
    case OwnerLoad(u) => ActOwnerLoad(u, obs)
    case OwnerDelete(u, ofParty) => Commit([DeleteData(u, ofParty)])
    case Delete(u, ofParty) => Commit([DeleteData(u, ofParty)])
  }

  function BodyOf(j: Job): Body {
    obs => Act(j, obs)
  }

  // ---------------------------------------------------------------- what may follow a job

  /** The latest stage that any client completed, with the latest of its attempts. */
  ghost predicate IsLastCompleted(clients: map<ClientId, Client>, stage: int, attempt: Option<int>) {
    stage >= UNKNOWN_STAGE && (forall c :: c in clients ==> clients[c].lastStage <= stage) &&
    (stage == UNKNOWN_STAGE || exists c :: c in clients && clients[c].lastStage == stage) &&
    (forall c :: c in clients && clients[c].lastStage == stage ==> AttemptLe(clients[c].lastAttempt, attempt)) &&
    (attempt.None? || exists c :: c in clients && clients[c].lastStage == stage && clients[c].lastAttempt == attempt)
  }

  ghost predicate Continues(u: Uuid, andThen: Then, next: Option<Job>) {
    match andThen
    case ThenStop => next.None?
    case ThenCheck => next == Some(CheckActive(u))
    case ThenDelete(party) => next == Some(OwnerDelete(u, party))
  }

  /** Completing a stage, once the challenge is loaded. */
  ghost predicate Completes(u: Uuid, h: Hash, stage: int, attempt: Option<int>, andThen: Then, next: Option<Job>) {
    if h.timeoutState == Some(STAGE_END) then next == Some(ClearStageEnd(u, stage, attempt, andThen))
    else exists now :: next == Some(Claim(u, stage, attempt, now, andThen))
  }

  ghost predicate Next(j: Job, obs: seq<Obs>, next: Option<Job>) {
    match j
    case Start(joiner, party, stage, created) =>
      (match Decide(party, stage, obs)
       case CreateNew(_) => next == Some(Activate(created, joiner, party, stage)) || next == Some(AbortCreate(created, party))
       case JoinLater(last) => next == Some(Join(last, joiner, 0))
       case _ => next.None?)
    case Join(u, joiner, retries) =>
      var h := HashSeen(obs, u);
      if h.Some? && h.value.state == Some(INITIALIZING) && retries + 1 < DEFERRED_JOIN_MAX_RETRIES
      then next == Some(Join(u, joiner, retries + 1)) else next.None?
    case CheckAdd(u, joiner) =>
      var p := PointerSeen(obs, joiner.c);
      if p.Some? && (p.value.None? || p.value == Some(u)) then next == Some(Add(u, joiner)) else next.None?
    case CheckUpdate(u, c, update, retriable) =>
      if PointerSeen(obs, c) == Some(Some(u)) then next == Some(ApplyUpdate(u, c, update, retriable)) else next.None?
    case ApplyUpdate(u, c, update, retriable) =>
      var h := HashSeen(obs, u); var clients := ClientsSeen(obs, u);
      if h.None? || h.value == NO_HASH then next.None?
      else if update.entryMode then exists now :: next == Some(Cleanup(u, None, now))
      else if update.stage.None? || clients.None? then next.None?
      else
        var o := StageOutcome(u, c, update.stage.value, retriable, h.value, clients.value);
        if o.Applied? && o.finishing.Some?
        then exists now :: next == Some(MarkProcessing(u, o.finishing.value.0, o.finishing.value.1, now))
        else next.None?
    case MarkProcessing(u, stage, attempt, _) => next == Some(Load(u, stage, attempt, ThenStop))
    case OnEvent(c, token, status) =>
      var p := PointerSeen(obs, c);
      if p.None? || p.value.None? then next.None?
      else
        next == Some(match status
                     case ClientActive => SetActive(p.value.value, c, token)
                     case ClientIdle => SetInactive(p.value.value, c, token)
                     case ClientDisconnected => Remove(p.value.value, c, token))
    case Load(u, stage, attempt, andThen) =>
      var h := HashSeen(obs, u);
      if stage == UNKNOWN_STAGE || h.None? || h.value == NO_HASH then Continues(u, andThen, next)
      else Completes(u, h.value, stage, attempt, andThen, next)
    case ClearStageEnd(u, stage, attempt, andThen) => exists now :: next == Some(Claim(u, stage, attempt, now, andThen))
    case Claim(u, stage, attempt, _, andThen) =>
      var done := ProcessedSeen(obs, u);
      if done.None? || (stage, attempt) in done.value then Continues(u, andThen, next)
      else
        // The merge may fail: only the owner of the challenge then gives up.
        (exists completed :: next == Some(Merge(u, stage, attempt, completed, andThen))) ||
        (if andThen.ThenDelete? then next.None? else Continues(u, andThen, next))
    case Merge(u, _, _, _, andThen) => Continues(u, andThen, next)
    case Tick =>
      var t := TimeoutsSeen(obs);
      next.None? || (t.Some? && exists u :: u in t.value && next == Some(TickState(u, t.value[u])))
    case TickState(u, timeout) =>
      var h := HashSeen(obs, u);
      if h.None? then next.None?
      else if h.value.timeoutState == Some(CLEANUP_DUE) || h.value.timeoutState == Some(CHALLENGE_END)
      then exists now :: next == Some(Cleanup(u, Some(timeout), now))
      else next == Some(if h.value.timeoutState == Some(STAGE_END) then StageEndTimer(u) else ClearStale(u))
    case ClearStale(u) => next == Some(Tick)
    case StageEndTimer(u) =>
      var clients := ClientsSeen(obs, u);
      clients.Some? &&
      exists stage, attempt ::
        IsLastCompleted(clients.value, stage, attempt) && next == Some(Load(u, stage, attempt, ThenCheck))
    case Cleanup(u, due, now) =>
      var h := HashSeen(obs, u); var clients := ClientsSeen(obs, u);
      if h.None? || clients.None? then next.None?
      else
        (match CleanupOutcome(h.value, clients.value, due, now)
         case OK => next == Some(OwnerLoad(u))
         case CHALLENGE_NOT_FOUND => exists party :: next == Some(Delete(u, party))
         case CHALLENGE_FAILED_CLEANUP => exists party :: next == Some(Delete(u, party))
         case _ => next.None?)
    case OwnerLoad(u) =>
      var h := HashSeen(obs, u);
      if h.None? then next.None?
      else if h.value == NO_HASH then exists party :: next == Some(OwnerDelete(u, party))
      else Completes(u, h.value, h.value.stage.GetOr(UNKNOWN_STAGE), h.value.attempt, ThenDelete(h.value.party), next)
    case _ => next.None?
  }

  /** The jobs that requests, client events and the timer start with. */
  predicate Arrives(j: Job) {
    j.Start? || j.CheckAdd? || j.CheckUpdate? || j.Finish? || j.OnEvent? || j.Tick?
  }
}
