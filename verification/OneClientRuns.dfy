/**
 * Runs with a single challenge and a single client, from the empty store: how they begin, and what one
 * job after another makes of the challenge.
 */
module OneClientRuns {
  import opened Options
  import opened RedisStore
  import opened ChallengeStage
  import opened Transactions
  import opened ManagerJobs
  import opened LifecycleStore
  import opened ManagerEffects
  import opened ChallengeLifecycle
  import opened SequentialRuns

  /** A server that has just started on an empty store. */
  const NOTHING := System(State(Store(map[], map[], map[], map[], map[], map[]), map[], []), map[], {}, {})

  /** What the store holds about a challenge, and where a client points. */
  datatype View = View(
    hash: Hash, clients: map<ClientId, Client>, done: set<(int, Option<int>)>, pointer: Option<Uuid>, timeout: Option<Timeout>)

  function ViewOf(s: Store, u: Uuid, c: ClientId): View {
    View(s.Hash(u), s.Clients(u), s.Processed(u), s.Pointer(c), if u in s.timeouts then Some(s.timeouts[u]) else None)
  }

  /** Nothing is in flight, these are the jobs, and this is how the challenge stands. */
  ghost predicate Here(s: System, jobs: map<Tid, Job>, u: Uuid, c: ClientId, v: View) {
    s.db.runs == map[] && s.jobs == jobs && u in s.born && ViewOf(s.db.store, u, c) == v
  }

  lemma {:induction false} BornGrows(ws: seq<Write>, born: set<Uuid>)
    ensures born <= BornAfterAll(ws, born)
  {
    if ws != [] {
      BornGrows(ws[..|ws| - 1], born);
    }
  }

  /** What the store is known to hold. */
  lemma Stands(s: System, jobs: map<Tid, Job>, u: Uuid, c: ClientId, v: View)
    requires Here(s, jobs, u, c, v)
    ensures s.db.store.Hash(u) == v.hash && s.db.store.Clients(u) == v.clients && s.db.store.Processed(u) == v.done
    ensures s.db.store.Pointer(c) == v.pointer && ViewOf(s.db.store, u, c) == v && s.jobs == jobs
  {
  }

  /** A job runs alone to its end. */
  lemma Ran1(
      t: Trail, jobs: map<Tid, Job>, tid: Tid, obs: seq<Obs>, ws: seq<Write>, next: Option<Job>, u: Uuid, c: ClientId,
      before: View, v: View)
    returns (t': Trail)
    requires t.Valid() && tid in jobs && Here(t.Last(), jobs, u, c, before)
    requires RunsAlone(BodyOf(jobs[tid]), t.Last().db.store, obs, ws) && Next(jobs[tid], obs, next)
    requires ViewOf(ApplyAll(ws, t.Last().db.store), u, c) == v
    ensures t'.Valid() && t'.First() == t.First() && Here(t'.Last(), Replaced(jobs, tid, next), u, c, v)
  {
    hide Behavior, Act, Next, Apply, ApplyAll, RunsAlone;
    t' := RunsToEnd(t, tid, obs, ws, next);
    BornGrows(ws, t.Last().born);
  }

  lemma Came(t: Trail, jobs: map<Tid, Job>, tid: Tid, job: Job, u: Uuid, c: ClientId, v: View) returns (t': Trail)
    requires t.Valid() && Here(t.Last(), jobs, u, c, v) && tid !in jobs && Arrives(job)
    requires job.Start? ==> job.created !in t.Last().minted
    ensures t'.Valid() && t'.First() == t.First() && Here(t'.Last(), jobs[tid := job], u, c, v)
  {
    hide Behavior;
    t' := Arrived(t, tid, job);
  }

  // ---------------------------------------------------------------- creating a challenge

  function First(joiner: Joiner, stage: int): Client {
    Joined(map[], joiner, stage, None)
  }

  lemma CanStart(joiner: Joiner, party: Party, stage: int, u: Uuid, s: Store) returns (obs: seq<Obs>)
    requires s.Challenges(party) == []
    ensures var j := Start(joiner, party, stage, u);
      RunsAlone(BodyOf(j), s, obs, [PushParty(party, u), SetFields(u, BirthPatch(stage))]) &&
      Next(j, obs, Some(Activate(u, joiner, party, stage)))
  {
    var j, o := Start(joiner, party, stage, u), Obs(KeyParty(party), ValParty([]));
    obs := [o];
    SeenFirst(o);
    assert Act(j, obs).writes == [PushParty(party, u), SetFields(u, BirthPatch(stage))];
    OneRead(j, s, o.key);
  }

  lemma CanActivate(joiner: Joiner, party: Party, stage: int, u: Uuid, s: Store) returns (obs: seq<Obs>)
    ensures var j := Activate(u, joiner, party, stage);
      RunsAlone(BodyOf(j), s, obs, [SetFields(u, ActivePatch(stage, party)),
                                    SetClient(u, joiner.c, Joined(s.Clients(u), joiner, stage, None))]) &&
      Next(j, obs, None)
  {
    var j, o := Activate(u, joiner, party, stage), Obs(KeyClients(u), ValClients(s.Clients(u)));
    obs := [o];
    SeenFirst(o);
    OneRead(j, s, o.key);
  }

  lemma CanCheckUpdate(u: Uuid, c: ClientId, update: Update, retriable: int -> bool, s: Store) returns (obs: seq<Obs>)
    requires s.Pointer(c) == Some(u)
    ensures var j := CheckUpdate(u, c, update, retriable);
      RunsAlone(BodyOf(j), s, obs, []) && Next(j, obs, Some(ApplyUpdate(u, c, update, retriable)))
  {
    var o := Obs(KeyPointer(c), ValPointer(Some(u)));
    obs := [o];
    SeenFirst(o);
    OneRead(CheckUpdate(u, c, update, retriable), s, o.key);
  }

  function Heard(u: Uuid, c: ClientId, token: int, status: ClientStatus): Job {
    match status
    case ClientActive => SetActive(u, c, token)
    case ClientIdle => SetInactive(u, c, token)
    case ClientDisconnected => Remove(u, c, token)
  }

  lemma CanHear(u: Uuid, c: ClientId, token: int, status: ClientStatus, s: Store) returns (obs: seq<Obs>)
    requires s.Pointer(c) == Some(u)
    ensures var j := OnEvent(c, token, status);
      RunsAlone(BodyOf(j), s, obs, []) && Next(j, obs, Some(Heard(u, c, token, status)))
  {
    var o := Obs(KeyPointer(c), ValPointer(Some(u)));
    obs := [o];
    SeenFirst(o);
    OneRead(OnEvent(c, token, status), s, o.key);
  }

  /** A challenge that its creator has just activated. */
  function Playing(joiner: Joiner, party: Party, stage: int, u: Uuid): View {
    View(ActivePatch(stage, party).On(BirthPatch(stage).On(NO_HASH)), map[joiner.c := First(joiner, stage)], {}, Some(u), None)
  }

  function Newborn(stage: int): View {
    View(BirthPatch(stage).On(NO_HASH), map[], {}, None, None)
  }

  lemma CreateView(party: Party, stage: int, u: Uuid, c: ClientId)
    ensures ViewOf(ApplyAll([PushParty(party, u), SetFields(u, BirthPatch(stage))], NOTHING.db.store), u, c) ==
      Newborn(stage)
  {
    TwoApplied(PushParty(party, u), SetFields(u, BirthPatch(stage)), NOTHING.db.store);
  }

  lemma ActivateView(joiner: Joiner, party: Party, stage: int, u: Uuid, s: Store)
    requires ViewOf(s, u, joiner.c) == Newborn(stage)
    ensures var ws := [SetFields(u, ActivePatch(stage, party)), SetClient(u, joiner.c, First(joiner, stage))];
      ViewOf(ApplyAll(ws, s), u, joiner.c) == Playing(joiner, party, stage, u)
  {
    TwoApplied(SetFields(u, ActivePatch(stage, party)), SetClient(u, joiner.c, First(joiner, stage)), s);
  }

  lemma Created(joiner: Joiner, party: Party, stage: int, u: Uuid) returns (t: Trail)
    ensures t.Valid() && t.First() == NOTHING
    ensures Here(t.Last(), map[1 := Activate(u, joiner, party, stage)], u, joiner.c, Newborn(stage))
    ensures t.Last().minted == {u} && forall p :: p != party ==> t.Last().db.store.Challenges(p) == []
  {
    hide Apply, ApplyAll, Act, Next, RunsAlone;
    EmptyStoreIsGood();
    t := Trail([NOTHING], []);
    t := Arrived(t, 1, Start(joiner, party, stage, u));
    var obs := CanStart(joiner, party, stage, u, NOTHING.db.store);
    var ws := [PushParty(party, u), SetFields(u, BirthPatch(stage))];
    CreateView(party, stage, u, joiner.c);
    t := RunsToEnd(t, 1, obs, ws, Some(Activate(u, joiner, party, stage)));
    TwoWrites(ws[0], ws[1], NOTHING.db.store, {});
    OthersUnstarted(party, stage, u);
  }

  lemma OthersUnstarted(party: Party, stage: int, u: Uuid)
    ensures forall p :: p != party ==>
      ApplyAll([PushParty(party, u), SetFields(u, BirthPatch(stage))], NOTHING.db.store).Challenges(p) == []
  {
    TwoApplied(PushParty(party, u), SetFields(u, BirthPatch(stage)), NOTHING.db.store);
  }

  /** The challenge is active, its creator alone is connected, and nothing is under way. */
  lemma Activated(joiner: Joiner, party: Party, stage: int, u: Uuid) returns (t: Trail)
    ensures t.Valid() && t.First() == NOTHING && Here(t.Last(), map[], u, joiner.c, Playing(joiner, party, stage, u))
  {
    hide Apply, ApplyAll, Act, Next, RunsAlone;
    t := Created(joiner, party, stage, u);
    var s := t.Last().db.store;
    var obs := CanActivate(joiner, party, stage, u, s);
    ActivateView(joiner, party, stage, u, s);
    t := Ran1(t, map[1 := Activate(u, joiner, party, stage)], 1, obs,
              [SetFields(u, ActivePatch(stage, party)), SetClient(u, joiner.c, First(joiner, stage))], None, u, joiner.c,
              ViewOf(s, u, joiner.c), Playing(joiner, party, stage, u));
    assert map[1 := Activate(u, joiner, party, stage)] - {1} == map[];
  }

  /** A client asks for an update, which passes the check of its pointer. */
  lemma UpdateChecked(
      t: Trail, jobs: map<Tid, Job>, tid: Tid, u: Uuid, c: ClientId, update: Update, retriable: int -> bool, v: View)
    returns (t': Trail)
    requires t.Valid() && Here(t.Last(), jobs, u, c, v) && tid !in jobs && v.pointer == Some(u)
    ensures t'.Valid() && t'.First() == t.First()
    ensures Here(t'.Last(), jobs[tid := ApplyUpdate(u, c, update, retriable)], u, c, v)
  {
    hide Behavior, Here, Apply, ApplyAll, Act, Next, RunsAlone;
    var check, apply := CheckUpdate(u, c, update, retriable), ApplyUpdate(u, c, update, retriable);
    t' := Came(t, jobs, tid, check, u, c, v);
    Stands(t'.Last(), jobs[tid := check], u, c, v);
    var obs := CanCheckUpdate(u, c, update, retriable, t'.Last().db.store);
    NoWrite(t'.Last().db.store);
    t' := Ran1(t', jobs[tid := check], tid, obs, [], Some(apply), u, c, v, v);
    assert jobs[tid := check][tid := apply] == jobs[tid := apply];
  }

  /** A client's status event is heard. */
  lemma EventHeard(
      t: Trail, jobs: map<Tid, Job>, tid: Tid, u: Uuid, c: ClientId, token: int, status: ClientStatus, v: View)
    returns (t': Trail)
    requires t.Valid() && Here(t.Last(), jobs, u, c, v) && tid !in jobs && v.pointer == Some(u)
    ensures t'.Valid() && t'.First() == t.First() && Here(t'.Last(), jobs[tid := Heard(u, c, token, status)], u, c, v)
  {
    hide Behavior, Here, Apply, ApplyAll, Act, Next, RunsAlone;
    var event, heard := OnEvent(c, token, status), Heard(u, c, token, status);
    t' := Came(t, jobs, tid, event, u, c, v);
    Stands(t'.Last(), jobs[tid := event], u, c, v);
    var obs := CanHear(u, c, token, status, t'.Last().db.store);
    NoWrite(t'.Last().db.store);
    t' := Ran1(t', jobs[tid := event], tid, obs, [], Some(heard), u, c, v, v);
    assert jobs[tid := event][tid := heard] == jobs[tid := heard];
  }
}
