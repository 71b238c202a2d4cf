/**
 * The shared challenge data, as far as the manager's control flow reads it, and the writes that
 * a transaction queues. One write stands for one method of the writer; all its commands are
 * queued together.
 */
module RedisStore {
  import opened Options

  type Uuid = int
  type ClientId = int
  type Party = int

  datatype LifecycleState = INITIALIZING | ACTIVE | CLEANUP

  datatype TimeoutState = NO_TIMEOUT | STAGE_END | CHALLENGE_END | CLEANUP_DUE

  datatype StageStatus = ENTERED | STARTED | COMPLETED | WIPED

  datatype Timeout = Timeout(maxRetryAttempts: nat)

  datatype Client = Client(
    token: int, participant: bool, active: bool, stage: int, attempt: Option<int>, status: StageStatus,
    lastStage: int, lastAttempt: Option<int>)

  /** A challenge's hash; every field may be absent, and a hash without fields does not exist. */
  datatype Hash = Hash(
    state: Option<LifecycleState>, timeoutState: Option<TimeoutState>, stage: Option<int>, attempt: Option<int>,
    completed: Option<bool>, processing: Option<int>, party: Option<Party>)

  const NO_HASH := Hash(None, None, None, None, None, None, None)

  datatype Store = Store(
    hashes: map<Uuid, Hash>, clients: map<Uuid, map<ClientId, Client>>, processed: map<Uuid, set<(int, Option<int>)>>,
    timeouts: map<Uuid, Timeout>, pointers: map<ClientId, Uuid>, parties: map<Party, seq<Uuid>>)
  {
    function Hash(u: Uuid): Hash {
      if u in hashes then hashes[u] else NO_HASH
    }

    function Clients(u: Uuid): map<ClientId, Client> {
      if u in clients then clients[u] else map[]
    }

    function Processed(u: Uuid): set<(int, Option<int>)> {
      if u in processed then processed[u] else {}
    }

    function Pointer(c: ClientId): Option<Uuid> {
      if c in pointers then Some(pointers[c]) else None
    }

    function Challenges(p: Party): seq<Uuid> {
      if p in parties then parties[p] else []
    }
  }

  // ---------------------------------------------------------------- keys and the values under them

  datatype Key =
    | KeyHash(u: Uuid) | KeyClients(u: Uuid) | KeyProcessed(u: Uuid) | KeyTimeouts | KeyPointer(c: ClientId)
    | KeyParty(p: Party)

  datatype Val =
    | ValHash(hash: Hash) | ValClients(clients: map<ClientId, Client>) | ValProcessed(processed: set<(int, Option<int>)>)
    | ValTimeouts(timeouts: map<Uuid, Timeout>) | ValPointer(pointer: Option<Uuid>) | ValParty(challenges: seq<Uuid>)

  function At(s: Store, k: Key): Val {
    match k
    case KeyHash(u) => ValHash(s.Hash(u))
    case KeyClients(u) => ValClients(s.Clients(u))
    case KeyProcessed(u) => ValProcessed(s.Processed(u))
    case KeyTimeouts => ValTimeouts(s.timeouts)
    case KeyPointer(c) => ValPointer(s.Pointer(c))
    case KeyParty(p) => ValParty(s.Challenges(p))
  }

  // ---------------------------------------------------------------- writes

  /** What a partial state says about one field: nothing, a value, or null. */
  datatype Change<T> = Keep | Put(value: T) | Clear {
    function On(before: Option<T>): Option<T> {
      match this case Keep => before case Put(v) => Some(v) case Clear => None
    }
  }

  datatype Patch = Patch(
    state: Change<LifecycleState>, timeoutState: Change<TimeoutState>, stage: Change<int>, attempt: Change<int>,
    completed: Change<bool>, processing: Change<int>, party: Change<Party>)
  {
    function On(h: Hash): Hash {
      Hash(state.On(h.state), timeoutState.On(h.timeoutState), stage.On(h.stage), attempt.On(h.attempt),
           completed.On(h.completed), processing.On(h.processing), party.On(h.party))
    }
  }

  const NO_CHANGE := Patch(Keep, Keep, Keep, Keep, Keep, Keep, Keep)

  datatype Write =
    | SetFields(u: Uuid, patch: Patch)
    | SetClient(u: Uuid, c: ClientId, client: Client)
    | RemoveClient(u: Uuid, c: ClientId)
    | SetTimeout(u: Uuid, state: TimeoutState, timeout: Timeout)
    | ClearTimeout(u: Uuid)
    | SetProcessed(u: Uuid, stage: int, attempt: Option<int>)
    | PushParty(p: Party, u: Uuid)
    | PopParty(p: Party)
    | DeleteData(u: Uuid, party: Option<Party>)
    | RefreshSession

  function RemoveFirst(us: seq<Uuid>, u: Uuid): seq<Uuid> {
    if us == [] then [] else if us[0] == u then us[1..] else [us[0]] + RemoveFirst(us[1..], u)
  }

  function Apply(w: Write, s: Store): Store {
    match w
    case SetFields(u, patch) => s.(hashes := s.hashes[u := patch.On(s.Hash(u))])
    case SetClient(u, c, client) =>
      s.(clients := s.clients[u := s.Clients(u)[c := client]], pointers := s.pointers[c := u])
    case RemoveClient(u, c) =>
      s.(clients := s.clients[u := s.Clients(u) - {c}],
         pointers := if s.Pointer(c) == Some(u) then s.pointers - {c} else s.pointers)
    case SetTimeout(u, state, timeout) =>
      s.(hashes := s.hashes[u := s.Hash(u).(timeoutState := Some(state))], timeouts := s.timeouts[u := timeout])
    case ClearTimeout(u) =>
      s.(hashes := s.hashes[u := s.Hash(u).(timeoutState := Some(NO_TIMEOUT))], timeouts := s.timeouts - {u})
    case SetProcessed(u, stage, attempt) =>
      s.(processed := s.processed[u := s.Processed(u) + {(stage, attempt)}])
    case PushParty(p, u) => s.(parties := s.parties[p := s.Challenges(p) + [u]])
    case PopParty(p) =>
      if s.Challenges(p) == [] then s else s.(parties := s.parties[p := s.Challenges(p)[..|s.Challenges(p)| - 1]])
    case DeleteData(u, party) =>
      s.(hashes := s.hashes - {u}, clients := s.clients - {u}, processed := s.processed - {u}, timeouts := s.timeouts - {u},
         parties := if party.Some? then s.parties[party.value := RemoveFirst(s.Challenges(party.value), u)] else s.parties)
    case RefreshSession => s
  }

  function ApplyAll(ws: seq<Write>, s: Store): Store {
    if ws == [] then s else Apply(ws[|ws| - 1], ApplyAll(ws[..|ws| - 1], s))
  }
}
