/**
 * What single operations of the manager do to the store when their turn comes, and what pairs and
 * rounds of them come to. Since every run is serialized in commit order, each commit has this effect.
 */
module ManagerEffects {
  import opened Options
  import opened RedisStore
  import opened ChallengeStage
  import opened Transactions
  import opened TransactionClient
  import opened ManagerJobs
  import opened LifecycleStore
  import opened ManagerCommits

  /** The job runs alone on `s`, reading `obs`, and leaves `s'`. */
  ghost predicate Ran(j: Job, s: Store, obs: seq<Obs>, s': Store) {
    Act(j, obs).Commit? && RunsAlone(BodyOf(j), s, obs, Act(j, obs).writes) && s' == ApplyAll(Act(j, obs).writes, s)
  }

  lemma RanReads(j: Job, s: Store, obs: seq<Obs>, s': Store, u: Uuid, c: ClientId)
    requires Ran(j, s, obs, s')
    ensures Current(obs, s)
    ensures HashSeen(obs, u).Some? ==> HashSeen(obs, u).value == s.Hash(u)
    ensures ClientsSeen(obs, u).Some? ==> ClientsSeen(obs, u).value == s.Clients(u)
    ensures PointerSeen(obs, c).Some? ==> PointerSeen(obs, c).value == s.Pointer(c)
  {
    ChallengeSeen(obs, u, s);
    PointerSeenNow(obs, c, s);
  }

  // ---------------------------------------------------------------- lists of writes

  lemma OneWrite(a: Write, s: Store)
    ensures ApplyAll([a], s) == Apply(a, s)
  {
    hide Apply;
    assert [a][..0] == [];
    assert ApplyAll([], s) == s;
  }

  lemma {:induction false} WritesInTurn(a: seq<Write>, b: seq<Write>, s: Store)
    ensures ApplyAll(a + b, s) == ApplyAll(b, ApplyAll(a, s))
  {
    hide Apply;
    if b == [] {
      assert a + b == a;
    } else {
      var init := b[..|b| - 1];
      WritesInTurn(a, init, s);
      assert (a + b)[..|a + b| - 1] == a + init;
    }
  }

  lemma TwoApplied(a: Write, b: Write, s: Store)
    ensures ApplyAll([a, b], s) == Apply(b, Apply(a, s))
  {
    TwoWrites(a, b, s, {});
  }

  lemma MaybeOne(a: Write, more: bool, b: Write, s: Store)
    ensures ApplyAll([a] + (if more then [b] else []), s) == if more then Apply(b, Apply(a, s)) else Apply(a, s)
  {
    hide Apply;
    OneWrite(a, s);
    TwoApplied(a, b, s);
    assert [a] + [] == [a] && [a] + [b] == [a, b];
  }

  // ---------------------------------------------------------------- single writes

  /** The client is out, everybody else is still in, and the client does not point at the challenge it left. */
  ghost predicate Left(s: Store, s': Store, u: Uuid, c: ClientId) {
    s'.Clients(u) == s.Clients(u) - {c} && s'.Pointer(c) != Some(u) &&
    (forall d :: d != c ==> s'.Pointer(d) == s.Pointer(d)) && (forall v :: v != u ==> s'.Clients(v) == s.Clients(v))
  }

  ghost predicate TimesOut(s: Store, u: Uuid, state: TimeoutState, timeout: Timeout) {
    s.Hash(u).timeoutState == Some(state) && u in s.timeouts && s.timeouts[u] == timeout
  }

  lemma RemoveClientApplied(u: Uuid, c: ClientId, s: Store)
    ensures var s' := Apply(RemoveClient(u, c), s); Left(s, s', u, c) && s'.hashes == s.hashes && s'.timeouts == s.timeouts
  {
  }

  lemma SetClientApplied(u: Uuid, c: ClientId, client: Client, s: Store)
    ensures var s' := Apply(SetClient(u, c, client), s);
      s'.Clients(u) == s.Clients(u)[c := client] && s'.Pointer(c) == Some(u) && s'.hashes == s.hashes && s'.timeouts == s.timeouts
  {
  }

  lemma SetTimeoutApplied(u: Uuid, state: TimeoutState, timeout: Timeout, s: Store)
    ensures var s' := Apply(SetTimeout(u, state, timeout), s);
      TimesOut(s', u, state, timeout) && s'.Hash(u) == s.Hash(u).(timeoutState := Some(state)) &&
      s'.clients == s.clients && s'.pointers == s.pointers
  {
  }

  lemma ClearTimeoutApplied(u: Uuid, s: Store)
    ensures var s' := Apply(ClearTimeout(u), s);
      u !in s'.timeouts && s'.Hash(u) == s.Hash(u).(timeoutState := Some(NO_TIMEOUT)) &&
      s'.clients == s.clients && s'.pointers == s.pointers
  {
  }

  lemma SetFieldsApplied(u: Uuid, p: Patch, s: Store)
    ensures var s' := Apply(SetFields(u, p), s);
      s'.Hash(u) == p.On(s.Hash(u)) && s'.clients == s.clients && s'.pointers == s.pointers && s'.timeouts == s.timeouts
  {
  }

  lemma RefreshApplied(s: Store)
    ensures Apply(RefreshSession, s) == s
  {
  }

  // ---------------------------------------------------------------- leaving

  lemma LastClient(clients: map<ClientId, Client>, c: ClientId)
    requires c in clients
    ensures |clients| <= 1 <==> clients - {c} == map[]
  {
    var rest := clients - {c};
    assert clients.Keys == rest.Keys + {c};
    assert |clients| == |clients.Keys| == |rest.Keys| + 1;
    assert rest == map[] <==> |rest.Keys| == 0;
  }

  lemma RemoveWrites(u: Uuid, c: ClientId, token: int, s: Store, obs: seq<Obs>, s': Store)
    requires Ran(Remove(u, c, token), s, obs, s') && c in s.Clients(u) && s.Clients(u)[c].token == token
    requires s.Hash(u).state == Some(ACTIVE)
    ensures var m := Apply(RemoveClient(u, c), s);
      s' == if |s.Clients(u)| <= 1 then Apply(SetTimeout(u, CLEANUP_DUE, Timeout(3)), m) else m
  {
    RanReads(Remove(u, c, token), s, obs, s', u, c);
    MaybeOne(RemoveClient(u, c), |s.Clients(u)| <= 1, SetTimeout(u, CLEANUP_DUE, Timeout(3)), s);
    hide Apply, ApplyAll, RunsAlone;
  }

  /** A disconnected client is removed; the last one to go leaves a reconnection timer behind. */
  lemma RemoveEffect(u: Uuid, c: ClientId, token: int, s: Store, obs: seq<Obs>, s': Store)
    requires Ran(Remove(u, c, token), s, obs, s') && c in s.Clients(u) && s.Clients(u)[c].token == token
    requires s.Hash(u).state == Some(ACTIVE)
    ensures Left(s, s', u, c)
    ensures if s'.Clients(u) == map[] then TimesOut(s', u, CLEANUP_DUE, Timeout(3))
      else s'.Hash(u) == s.Hash(u) && s'.timeouts == s.timeouts
  {
    hide Apply, Ran;
    RemoveWrites(u, c, token, s, obs, s');
    LastClient(s.Clients(u), c);
    RemoveClientApplied(u, c, s);
    SetTimeoutApplied(u, CLEANUP_DUE, Timeout(3), Apply(RemoveClient(u, c), s));
  }

  lemma FinishWrites(u: Uuid, c: ClientId, soft: bool, reported: bool, s: Store, obs: seq<Obs>, s': Store)
    requires Ran(Finish(u, c, soft, reported), s, obs, s') && s.Pointer(c) == Some(u) && c in s.Clients(u)
    requires s.Hash(u).state == Some(ACTIVE)
    ensures var ends := |s.Clients(u)| == 1 || (!soft && s.Clients(u)[c].participant) || reported ||
              TimeoutStateOf(s.Hash(u)) == CHALLENGE_END;
      s' == Apply(if ends then SetTimeout(u, CHALLENGE_END, Timeout(3)) else SetTimeout(u, CLEANUP_DUE, Timeout(1)),
                  Apply(RemoveClient(u, c), s))
  {
    hide Apply, ApplyAll, RunsAlone;
    RanReads(Finish(u, c, soft, reported), s, obs, s', u, c);
    var ws := Act(Finish(u, c, soft, reported), obs).writes;
    assert ws == [RemoveClient(u, c), RefreshSession] + [ws[2]];
    hide Act;
    WritesInTurn([RemoveClient(u, c), RefreshSession], [ws[2]], s);
    TwoApplied(RemoveClient(u, c), RefreshSession, s);
    RefreshApplied(Apply(RemoveClient(u, c), s));
    OneWrite(ws[2], Apply(RemoveClient(u, c), s));
  }

  /**
   * A client that finishes is removed, and the challenge times out: soon if nobody is left, the client
   * knows that it ended or it was already known; otherwise after the time to reconnect.
   */
  lemma FinishEffect(u: Uuid, c: ClientId, soft: bool, reported: bool, s: Store, obs: seq<Obs>, s': Store)
    requires Ran(Finish(u, c, soft, reported), s, obs, s') && s.Pointer(c) == Some(u) && c in s.Clients(u)
    requires s.Hash(u).state == Some(ACTIVE)
    ensures Left(s, s', u, c)
    ensures var ends := s'.Clients(u) == map[] || (!soft && s.Clients(u)[c].participant) || reported ||
              TimeoutStateOf(s.Hash(u)) == CHALLENGE_END;
      if ends then TimesOut(s', u, CHALLENGE_END, Timeout(3)) else TimesOut(s', u, CLEANUP_DUE, Timeout(1))
  {
    hide Apply, Ran;
    FinishWrites(u, c, soft, reported, s, obs, s');
    LastClient(s.Clients(u), c);
    var m := Apply(RemoveClient(u, c), s);
    RemoveClientApplied(u, c, s);
    SetTimeoutApplied(u, CHALLENGE_END, Timeout(3), m);
    SetTimeoutApplied(u, CLEANUP_DUE, Timeout(1), m);
  }

  // ---------------------------------------------------------------- joining, and undoing it

  /**
   * The client is listed and active at a position, points at the challenge and keeps its last
   * completed stage; the others stay.
   */
  ghost predicate JoinedAt(s: Store, s': Store, u: Uuid, joiner: Joiner, p: Position) {
    joiner.c in s'.Clients(u) && s'.Pointer(joiner.c) == Some(u) && s'.Clients(u) - {joiner.c} == s.Clients(u) - {joiner.c} &&
    var client := s'.Clients(u)[joiner.c];
    client.active && client.token == joiner.token && Position(client.stage, client.attempt) == p &&
    if joiner.c in s.Clients(u) then
      client.lastStage == s.Clients(u)[joiner.c].lastStage && client.lastAttempt == s.Clients(u)[joiner.c].lastAttempt
    else client.lastStage == UNKNOWN_STAGE && client.lastAttempt.None?
  }

  /** A cleanup that was due is called off, and nothing else about the challenge changes. */
  ghost predicate CalledOff(s: Store, s': Store, u: Uuid, due: bool) {
    if due && s.Hash(u).timeoutState == Some(CLEANUP_DUE)
    then s'.Hash(u) == s.Hash(u).(timeoutState := Some(NO_TIMEOUT)) && u !in s'.timeouts
    else s'.Hash(u) == s.Hash(u) && s'.timeouts == s.timeouts
  }

  function AtChallenge(s: Store, u: Uuid, joiner: Joiner): Client {
    Joined(s.Clients(u), joiner, s.Hash(u).stage.GetOr(UNKNOWN_STAGE), s.Hash(u).attempt)
  }

  lemma JoinApplied(u: Uuid, joiner: Joiner, p: Position, due: bool, s: Store)
    ensures var m := Apply(SetClient(u, joiner.c, Joined(s.Clients(u), joiner, p.stage, p.attempt)), s);
      JoinedAt(s, m, u, joiner, p) && m.hashes == s.hashes && m.timeouts == s.timeouts &&
      var s' := if due && s.Hash(u).timeoutState == Some(CLEANUP_DUE) then Apply(ClearTimeout(u), m) else m;
      JoinedAt(s, s', u, joiner, p) && CalledOff(s, s', u, due)
  {
    hide Apply;
    var client := Joined(s.Clients(u), joiner, p.stage, p.attempt);
    SetClientApplied(u, joiner.c, client, s);
    ClearTimeoutApplied(u, Apply(SetClient(u, joiner.c, client), s));
  }

  lemma AddWrites(u: Uuid, joiner: Joiner, s: Store, obs: seq<Obs>, s': Store)
    requires Ran(Add(u, joiner), s, obs, s') && s.Hash(u).state == Some(ACTIVE)
    ensures var m := Apply(SetClient(u, joiner.c, AtChallenge(s, u, joiner)), s);
      s' == if AllInactive(s.Clients(u)) && s.Hash(u).timeoutState == Some(CLEANUP_DUE) then Apply(ClearTimeout(u), m) else m
  {
    RanReads(Add(u, joiner), s, obs, s', u, joiner.c);
    hide Apply, ApplyAll, RunsAlone, Joined, AllInactive;
    var client := AtChallenge(s, u, joiner);
    var due := AllInactive(s.Clients(u)) && s.Hash(u).timeoutState == Some(CLEANUP_DUE);
    assert Act(Add(u, joiner), obs).writes == [SetClient(u, joiner.c, client)] + (if due then [ClearTimeout(u)] else []);
    MaybeOne(SetClient(u, joiner.c, client), due, ClearTimeout(u), s);
  }

  /** A client added to a challenge where nobody was active calls off the cleanup that was due for it. */
  lemma AddEffect(u: Uuid, joiner: Joiner, s: Store, obs: seq<Obs>, s': Store)
    requires Ran(Add(u, joiner), s, obs, s') && s.Hash(u).state == Some(ACTIVE)
    ensures JoinedAt(s, s', u, joiner, PositionOf(s.Hash(u))) && CalledOff(s, s', u, AllInactive(s.Clients(u)))
  {
    hide Apply, Ran, AllInactive, Joined;
    AddWrites(u, joiner, s, obs, s');
    JoinApplied(u, joiner, PositionOf(s.Hash(u)), AllInactive(s.Clients(u)), s);
  }

  /** A client that waited for a challenge to be created is in as soon as it is active. */
  lemma JoinEffect(u: Uuid, joiner: Joiner, retries: nat, s: Store, obs: seq<Obs>, s': Store)
    requires Ran(Join(u, joiner, retries), s, obs, s')
    ensures
      if s.Hash(u).state == Some(ACTIVE) then
        JoinedAt(s, s', u, joiner, PositionOf(s.Hash(u))) && CalledOff(s, s', u, false)
      else s.Hash(u).state == Some(INITIALIZING) && s' == s
  {
    hide Apply, ApplyAll, RunsAlone, Joined;
    RanReads(Join(u, joiner, retries), s, obs, s', u, joiner.c);
    OneWrite(SetClient(u, joiner.c, AtChallenge(s, u, joiner)), s);
    NoWrite(s);
    OtherState(s.Hash(u));
    JoinApplied(u, joiner, PositionOf(s.Hash(u)), false, s);
  }

  /** A start that joins an active challenge lists its client there, and calls off a cleanup that was due. */
  lemma StartJoins(j: Job, s: Store, obs: seq<Obs>, s': Store, last: Uuid)
    requires j.Start? && Ran(j, s, obs, s') && Decide(j.party, j.stage, obs) == JoinNow(last)
    ensures JoinedAt(s, s', last, j.joiner, PositionOf(s.Hash(last))) && CalledOff(s, s', last, true)
  {
    hide Apply, ApplyAll, RunsAlone, Joined, Decide;
    RanReads(j, s, obs, s', last, j.joiner.c);
    var client := AtChallenge(s, last, j.joiner);
    var due := s.Hash(last).timeoutState == Some(CLEANUP_DUE);
    var first := SetClient(last, j.joiner.c, client);
    assert Act(j, obs).writes == [first, RefreshSession] + (if due then [ClearTimeout(last)] else []);
    WritesInTurn([first, RefreshSession], if due then [ClearTimeout(last)] else [], s);
    TwoApplied(first, RefreshSession, s);
    RefreshApplied(Apply(first, s));
    OneWrite(ClearTimeout(last), Apply(first, s));
    NoWrite(Apply(first, s));
    JoinApplied(last, j.joiner, PositionOf(s.Hash(last)), true, s);
  }

  lemma NoWrite(s: Store)
    ensures ApplyAll([], s) == s
  {
  }

  lemma OtherState(h: Hash)
    ensures h.state.None? || h.state == Some(INITIALIZING) || h.state == Some(ACTIVE) || h.state == Some(CLEANUP)
  {
    if h.state.Some? {
      match h.state.value
      case INITIALIZING =>
      case ACTIVE =>
      case CLEANUP =>
    }
  }

  /** Activating a challenge lists its creator, where the challenge starts. */
  lemma ActivateEffect(u: Uuid, joiner: Joiner, party: Party, stage: int, s: Store, obs: seq<Obs>, s': Store)
    requires Ran(Activate(u, joiner, party, stage), s, obs, s')
    ensures s'.Hash(u).state == Some(ACTIVE) && s'.Hash(u).party == Some(party)
    ensures PositionOf(s'.Hash(u)) == Position(stage, None)
    ensures JoinedAt(s, s', u, joiner, Position(stage, None))
  {
    hide Apply, ApplyAll, RunsAlone, Joined;
    RanReads(Activate(u, joiner, party, stage), s, obs, s', u, joiner.c);
    var client := Joined(s.Clients(u), joiner, stage, None);
    var m := Apply(SetFields(u, ActivePatch(stage, party)), s);
    TwoApplied(SetFields(u, ActivePatch(stage, party)), SetClient(u, joiner.c, client), s);
    SetFieldsApplied(u, ActivePatch(stage, party), s);
    JoinApplied(u, joiner, Position(stage, None), false, m);
    assert m.Clients(u) == s.Clients(u);
  }

  /** A new client that is added and then disconnects leaves the clients of the challenge as they were. */
  lemma AddThenRemove(
      u: Uuid, joiner: Joiner, s: Store, obs: seq<Obs>, m: Store, obs': seq<Obs>, s': Store)
    requires Ran(Add(u, joiner), s, obs, m) && Ran(Remove(u, joiner.c, joiner.token), m, obs', s')
    requires s.Hash(u).state == Some(ACTIVE) && joiner.c !in s.Clients(u)
    ensures s'.Clients(u) == s.Clients(u) && s'.Pointer(joiner.c) != Some(u)
    ensures s.Clients(u) == map[] ==> TimesOut(s', u, CLEANUP_DUE, Timeout(3))
    ensures s.Clients(u) != map[] ==> CalledOff(s, s', u, AllInactive(s.Clients(u)))
  {
    hide Ran;
    AddEffect(u, joiner, s, obs, m);
    assert JoinedAt(s, m, u, joiner, PositionOf(s.Hash(u)));
    RemoveEffect(u, joiner.c, joiner.token, m, obs', s');
    assert s.Clients(u) - {joiner.c} == s.Clients(u);
  }

  // ---------------------------------------------------------------- idling, and undoing it

  lemma SetInactiveWrites(u: Uuid, c: ClientId, token: int, s: Store, obs: seq<Obs>, s': Store)
    requires Ran(SetInactive(u, c, token), s, obs, s') && s.Pointer(c) == Some(u) && s.Hash(u) != NO_HASH
    requires c in s.Clients(u) && s.Clients(u)[c].token == token && s.Clients(u)[c].active
    ensures var idle := s.Clients(u)[c].(active := false); var m := Apply(SetClient(u, c, idle), s);
      s' == if AllInactive(s.Clients(u)[c := idle]) && TimeoutStateOf(s.Hash(u)) == NO_TIMEOUT
            then Apply(SetTimeout(u, CLEANUP_DUE, Timeout(0)), m) else m
  {
    RanReads(SetInactive(u, c, token), s, obs, s', u, c);
    hide Apply, ApplyAll, RunsAlone, AllInactive;
    var idle := s.Clients(u)[c].(active := false);
    var all := AllInactive(s.Clients(u)[c := idle]) && TimeoutStateOf(s.Hash(u)) == NO_TIMEOUT;
    MaybeOne(SetClient(u, c, idle), all, SetTimeout(u, CLEANUP_DUE, Timeout(0)), s);
  }

  /** A client goes idle; when it is the last active one, the inactivity timer starts. */
  lemma SetInactiveEffect(u: Uuid, c: ClientId, token: int, s: Store, obs: seq<Obs>, s': Store)
    requires Ran(SetInactive(u, c, token), s, obs, s') && s.Pointer(c) == Some(u) && s.Hash(u) != NO_HASH
    requires c in s.Clients(u) && s.Clients(u)[c].token == token && s.Clients(u)[c].active
    ensures s'.Clients(u) == s.Clients(u)[c := s.Clients(u)[c].(active := false)] && s'.Pointer(c) == Some(u)
    ensures if AllInactive(s'.Clients(u)) && TimeoutStateOf(s.Hash(u)) == NO_TIMEOUT
      then TimesOut(s', u, CLEANUP_DUE, Timeout(0)) && s'.Hash(u) == s.Hash(u).(timeoutState := Some(CLEANUP_DUE))
      else s'.Hash(u) == s.Hash(u) && s'.timeouts == s.timeouts
  {
    hide Apply, Ran, AllInactive;
    SetInactiveWrites(u, c, token, s, obs, s');
    var idle := s.Clients(u)[c].(active := false);
    SetClientApplied(u, c, idle, s);
    SetTimeoutApplied(u, CLEANUP_DUE, Timeout(0), Apply(SetClient(u, c, idle), s));
  }

  lemma SetActiveWrites(u: Uuid, c: ClientId, token: int, s: Store, obs: seq<Obs>, s': Store)
    requires Ran(SetActive(u, c, token), s, obs, s') && s.Pointer(c) == Some(u) && s.Hash(u) != NO_HASH
    requires c in s.Clients(u) && s.Clients(u)[c].token == token && !s.Clients(u)[c].active
    ensures var m := Apply(SetClient(u, c, s.Clients(u)[c].(active := true)), s);
      s' == if s.Hash(u).timeoutState == Some(CLEANUP_DUE) then Apply(ClearTimeout(u), m) else m
  {
    RanReads(SetActive(u, c, token), s, obs, s', u, c);
    hide Apply, ApplyAll, RunsAlone;
    var busy := s.Clients(u)[c].(active := true);
    MaybeOne(SetClient(u, c, busy), s.Hash(u).timeoutState == Some(CLEANUP_DUE), ClearTimeout(u), s);
  }

  /** A client comes back; a cleanup that was due because nobody was there is called off. */
  lemma SetActiveEffect(u: Uuid, c: ClientId, token: int, s: Store, obs: seq<Obs>, s': Store)
    requires Ran(SetActive(u, c, token), s, obs, s') && s.Pointer(c) == Some(u) && s.Hash(u) != NO_HASH
    requires c in s.Clients(u) && s.Clients(u)[c].token == token && !s.Clients(u)[c].active
    ensures s'.Clients(u) == s.Clients(u)[c := s.Clients(u)[c].(active := true)] && s'.Pointer(c) == Some(u)
    ensures if s.Hash(u).timeoutState == Some(CLEANUP_DUE)
      then s'.Hash(u) == s.Hash(u).(timeoutState := Some(NO_TIMEOUT)) && u !in s'.timeouts
      else s'.Hash(u) == s.Hash(u) && s'.timeouts == s.timeouts
  {
    hide Apply, Ran;
    SetActiveWrites(u, c, token, s, obs, s');
    var busy := s.Clients(u)[c].(active := true);
    SetClientApplied(u, c, busy, s);
    ClearTimeoutApplied(u, Apply(SetClient(u, c, busy), s));
  }

  /** A client that goes idle and comes back is as before, and so is the challenge: any timer it started is gone. */
  lemma IdleThenActive(
      u: Uuid, c: ClientId, token: int, s: Store, obs: seq<Obs>, m: Store, obs': seq<Obs>, s': Store)
    requires Ran(SetInactive(u, c, token), s, obs, m) && Ran(SetActive(u, c, token), m, obs', s')
    requires s.Pointer(c) == Some(u) && s.Hash(u).timeoutState == Some(NO_TIMEOUT) && u !in s.timeouts
    requires c in s.Clients(u) && s.Clients(u)[c].token == token && s.Clients(u)[c].active
    ensures s'.Clients(u) == s.Clients(u) && s'.Hash(u) == s.Hash(u) && s'.Pointer(c) == Some(u) && u !in s'.timeouts
  {
    hide Ran, AllInactive;
    SetInactiveEffect(u, c, token, s, obs, m);
    SetActiveEffect(u, c, token, m, obs', s');
    assert s'.Clients(u)[c] == s.Clients(u)[c];
  }

  // ---------------------------------------------------------------- cleanups run out of retries

  ghost predicate Due(s: Store, u: Uuid, now: int) {
    var h := s.Hash(u);
    h.state == Some(ACTIVE) && u in s.timeouts &&
    (h.timeoutState == Some(CLEANUP_DUE) || h.timeoutState == Some(CHALLENGE_END)) &&
    (h.processing.Some? ==> now - h.processing.value >= MAX_STAGE_PROCESSING_TIME)
  }

  lemma CleanupWritten(u: Uuid, now: int, s: Store, obs: seq<Obs>, s': Store)
    requires Due(s, u, now) && Ran(Cleanup(u, Some(s.timeouts[u]), now), s, obs, s')
    ensures var left := s.timeouts[u].maxRetryAttempts;
      s' == if s.Clients(u) == map[] || left == 0 then Apply(SetFields(u, CLEANUP_PATCH), s)
            else Apply(SetTimeout(u, TimeoutStateOf(s.Hash(u)), Timeout(left - 1)), s)
  {
    hide Apply, ApplyAll, RunsAlone;
    RanReads(Cleanup(u, Some(s.timeouts[u]), now), s, obs, s', u, 0);
    OneWrite(SetFields(u, CLEANUP_PATCH), s);
    if s.timeouts[u].maxRetryAttempts > 0 {
      OneWrite(SetTimeout(u, TimeoutStateOf(s.Hash(u)), Timeout(s.timeouts[u].maxRetryAttempts - 1)), s);
    }
  }

  /** A due challenge is retired if nobody is connected or no retry is left, and has one retry less otherwise. */
  lemma CleanupEffect(u: Uuid, now: int, s: Store, obs: seq<Obs>, s': Store)
    requires Due(s, u, now) && Ran(Cleanup(u, Some(s.timeouts[u]), now), s, obs, s')
    ensures s'.Clients(u) == s.Clients(u)
    ensures if s.Clients(u) == map[] || s.timeouts[u].maxRetryAttempts == 0 then s'.Hash(u).state == Some(CLEANUP)
      else s'.Hash(u) == s.Hash(u) && TimesOut(s', u, TimeoutStateOf(s.Hash(u)), Timeout(s.timeouts[u].maxRetryAttempts - 1))
  {
    hide Apply, Ran;
    CleanupWritten(u, now, s, obs, s');
    SetFieldsApplied(u, CLEANUP_PATCH, s);
    if s.timeouts[u].maxRetryAttempts > 0 {
      SetTimeoutApplied(u, TimeoutStateOf(s.Hash(u)), Timeout(s.timeouts[u].maxRetryAttempts - 1), s);
    }
  }

  predicate RecentlyProcessing(h: Hash, now: int) {
    h.processing.Some? && now - h.processing.value < MAX_STAGE_PROCESSING_TIME
  }

  /** A cleanup of an active challenge that goes by its current timeout and commits something. */
  lemma CleanupRound(u: Uuid, now: int, s: Store, obs: seq<Obs>, s': Store)
    requires u in s.timeouts && s.Hash(u).state == Some(ACTIVE) && Ran(Cleanup(u, Some(s.timeouts[u]), now), s, obs, s')
    requires Act(Cleanup(u, Some(s.timeouts[u]), now), obs).writes != []
    ensures var left := s.timeouts[u].maxRetryAttempts;
      if RecentlyProcessing(s.Hash(u), now) then u in s'.timeouts && s'.timeouts[u] == s.timeouts[u]
      else if s.Clients(u) == map[] || left == 0 then s'.Hash(u).state == Some(CLEANUP)
      else s'.Hash(u) == s.Hash(u) && u in s'.timeouts && s'.timeouts[u] == Timeout(left - 1)
  {
    if RecentlyProcessing(s.Hash(u), now) {
      CleanupPostponed(u, Some(s.timeouts[u]), now, s, obs, s');
      hide Ran, Act;
    } else {
      WritesWhenDue(u, now, s, obs, s');
      hide Act;
      CleanupEffect(u, now, s, obs, s');
      hide Ran;
    }
  }

  lemma WritesWhenDue(u: Uuid, now: int, s: Store, obs: seq<Obs>, s': Store)
    requires u in s.timeouts && s.Hash(u).state == Some(ACTIVE) && Ran(Cleanup(u, Some(s.timeouts[u]), now), s, obs, s')
    requires Act(Cleanup(u, Some(s.timeouts[u]), now), obs).writes != [] && !RecentlyProcessing(s.Hash(u), now)
    ensures Due(s, u, now)
  {
    hide ApplyAll;
    RanReads(Cleanup(u, Some(s.timeouts[u]), now), s, obs, s', u, 0);
    match TimeoutStateOf(s.Hash(u))
    case NO_TIMEOUT =>
    case STAGE_END =>
    case CHALLENGE_END =>
    case CLEANUP_DUE =>
  }

  // ---------------------------------------------------------------- stage updates

  lemma StartedOutcome(
      u: Uuid, c: ClientId, update: StageUpdate, retriable: int -> bool, h: Hash, clients: map<ClientId, Client>)
    requires update.status == STARTED && c in clients && h.stage.Some? && update.stage >= h.stage.value
    ensures var o := StageOutcome(u, c, update, retriable, h, clients);
      o.Applied? && o.timeout == LeaveTimeout && o.client.stage == update.stage &&
      PositionOf(o.patch.On(h)) == Position(o.client.stage, o.client.attempt) && o.patch.On(h).stage == Some(update.stage) &&
      var h' := h.(timeoutState := Some(NO_TIMEOUT));
      o.patch.On(h') == o.patch.On(h).(timeoutState := Some(NO_TIMEOUT))
  {
    PatchLeadsToStart(retriable, h, update.stage);
    PatchShape(retriable, PositionOf(h), update.stage);
  }

  lemma StartedWrites(u: Uuid, c: ClientId, update: Update, retriable: int -> bool, s: Store, obs: seq<Obs>, s': Store)
    requires Ran(ApplyUpdate(u, c, update, retriable), s, obs, s') && !update.entryMode && update.stage.Some?
    requires update.stage.value.status == STARTED && c in s.Clients(u) && s.Hash(u).stage.Some?
    requires s.Hash(u) != NO_HASH && update.stage.value.stage >= s.Hash(u).stage.value
    ensures var o := StageOutcome(u, c, update.stage.value, retriable, s.Hash(u), s.Clients(u));
      o.Applied? &&
      var m := if s.Hash(u).timeoutState == Some(CLEANUP_DUE) then Apply(ClearTimeout(u), s) else s;
      s' == if o.patch != NO_CHANGE then Apply(SetFields(u, o.patch), Apply(SetClient(u, c, o.client), m))
            else Apply(SetClient(u, c, o.client), m)
  {
    hide Apply, ApplyAll, RunsAlone, StageOutcome;
    RanReads(ApplyUpdate(u, c, update, retriable), s, obs, s', u, c);
    var o := StageOutcome(u, c, update.stage.value, retriable, s.Hash(u), s.Clients(u));
    StartedOutcome(u, c, update.stage.value, retriable, s.Hash(u), s.Clients(u));
    ActiveWrites(u, s.Hash(u), s);
    var active := ClearIfDue(u, s.Hash(u)) + [RefreshSession];
    assert Act(ApplyUpdate(u, c, update, retriable), obs).writes == active + StageWrites(u, c, o);
    hide Act, ClearIfDue;
    assert StageWrites(u, c, o) == [SetClient(u, c, o.client)] + (if o.patch != NO_CHANGE then [SetFields(u, o.patch)] else []);
    WritesInTurn(active, StageWrites(u, c, o), s);
    MaybeOne(SetClient(u, c, o.client), o.patch != NO_CHANGE, SetFields(u, o.patch), ApplyAll(active, s));
  }

  /** After a client's STARTED update, the client is exactly where the challenge is. */
  lemma StartedInStep(u: Uuid, c: ClientId, update: Update, retriable: int -> bool, s: Store, obs: seq<Obs>, s': Store)
    requires Ran(ApplyUpdate(u, c, update, retriable), s, obs, s') && !update.entryMode && update.stage.Some?
    requires update.stage.value.status == STARTED && c in s.Clients(u) && s.Hash(u).stage.Some?
    requires s.Hash(u) != NO_HASH && update.stage.value.stage >= s.Hash(u).stage.value
    ensures c in s'.Clients(u) && s'.Hash(u).stage == Some(update.stage.value.stage)
    ensures PositionOf(s'.Hash(u)) == Position(s'.Clients(u)[c].stage, s'.Clients(u)[c].attempt)
    ensures s.Hash(u).timeoutState == Some(CLEANUP_DUE) ==> s'.Hash(u).timeoutState == Some(NO_TIMEOUT)
  {
    StartedWrites(u, c, update, retriable, s, obs, s');
    StartedOutcome(u, c, update.stage.value, retriable, s.Hash(u), s.Clients(u));
    hide Apply, Ran, StageOutcome;
    var o := StageOutcome(u, c, update.stage.value, retriable, s.Hash(u), s.Clients(u));
    ClearTimeoutApplied(u, s);
    var m := if s.Hash(u).timeoutState == Some(CLEANUP_DUE) then Apply(ClearTimeout(u), s) else s;
    SetClientApplied(u, c, o.client, m);
    SetFieldsApplied(u, o.patch, Apply(SetClient(u, c, o.client), m));
  }

  lemma ActiveWrites(u: Uuid, h: Hash, s: Store)
    ensures ApplyAll(ClearIfDue(u, h) + [RefreshSession], s) ==
      if h.timeoutState == Some(CLEANUP_DUE) then Apply(ClearTimeout(u), s) else s
  {
    OneWrite(RefreshSession, s);
    TwoApplied(ClearTimeout(u), RefreshSession, s);
    assert [] + [RefreshSession] == [RefreshSession];
    assert [ClearTimeout(u)] + [RefreshSession] == [ClearTimeout(u), RefreshSession];
    hide ApplyAll;
  }

  // ---------------------------------------------------------------- creating

  lemma PushApplied(p: Party, u: Uuid, s: Store)
    ensures var s' := Apply(PushParty(p, u), s);
      s'.Challenges(p) == s.Challenges(p) + [u] && s'.hashes == s.hashes && s'.clients == s.clients
  {
  }

  lemma CreateWrites(joiner: Joiner, party: Party, stage: int, created: Uuid, s: Store, obs: seq<Obs>, s': Store)
    requires Ran(Start(joiner, party, stage, created), s, obs, s') && Decide(party, stage, obs).CreateNew?
    ensures exists m: Store ::
      m.hashes == s.hashes && s' == Apply(SetFields(created, BirthPatch(stage)), Apply(PushParty(party, created), m))
  {
    hide Apply, ApplyAll, RunsAlone, Decide;
    var pop := Decide(party, stage, obs).pop;
    var first := if pop then [PopParty(party)] else [];
    var rest := [PushParty(party, created), SetFields(created, BirthPatch(stage))];
    WritesInTurn(first, rest, s);
    OneWrite(PopParty(party), s);
    NoWrite(s);
    PopApplied(party, s);
    TwoApplied(PushParty(party, created), SetFields(created, BirthPatch(stage)), ApplyAll(first, s));
    assert Act(Start(joiner, party, stage, created), obs).writes == first + rest;
  }

  lemma PopApplied(p: Party, s: Store)
    ensures Apply(PopParty(p), s).hashes == s.hashes
  {
  }

  /** A challenge that is created is the last of its party, and waits to be activated. */
  lemma CreateEffect(joiner: Joiner, party: Party, stage: int, created: Uuid, s: Store, obs: seq<Obs>, s': Store)
    requires Ran(Start(joiner, party, stage, created), s, obs, s') && Decide(party, stage, obs).CreateNew?
    ensures s'.Challenges(party) != [] && s'.Challenges(party)[|s'.Challenges(party)| - 1] == created
    ensures s'.Hash(created) == BirthPatch(stage).On(s.Hash(created))
  {
    hide Apply, Ran, Decide;
    CreateWrites(joiner, party, stage, created, s, obs, s');
    var m: Store :|
      m.hashes == s.hashes && s' == Apply(SetFields(created, BirthPatch(stage)), Apply(PushParty(party, created), m));
    PushApplied(party, created, m);
    var n := Apply(PushParty(party, created), m);
    SetFieldsApplied(created, BirthPatch(stage), n);
    FieldsKeepParties(created, BirthPatch(stage), n);
  }

  lemma FieldsKeepParties(u: Uuid, p: Patch, s: Store)
    ensures Apply(SetFields(u, p), s).parties == s.parties
  {
  }

  lemma WaitsForCreated(party: Party, stage: int, obs: seq<Obs>, s: Store, created: Uuid, h: Hash)
    requires Current(obs, s) && !Decide(party, stage, obs).Undecided?
    requires s.Challenges(party) != [] && s.Challenges(party)[|s.Challenges(party)| - 1] == created && s.Hash(created) == h
    requires h.state == Some(INITIALIZING) && h.completed == Some(false) && TimeoutStateOf(h) == NO_TIMEOUT
    requires h.stage.Some? && (stage == UNKNOWN_STAGE || stage >= h.stage.value)
    ensures Decide(party, stage, obs) == JoinLater(created) && HashSeen(obs, created) == Some(h)
  {
    ChallengeSeen(obs, created, s);
    if Seen(obs, KeyParty(party)).Some? {
      SeenCurrent(obs, KeyParty(party), s);
    }
  }

  /** Of two starts of a party, for the same or a later stage, only the first creates a challenge: the second waits for it. */
  lemma StartTwice(
      a: Joiner, b: Joiner, party: Party, stage: int, stage': int, created: Uuid, created': Uuid, s: Store, obs: seq<Obs>,
      m: Store, obs': seq<Obs>, s': Store)
    requires Ran(Start(a, party, stage, created), s, obs, m) && Decide(party, stage, obs).CreateNew?
    requires Ran(Start(b, party, stage', created'), m, obs', s') && (stage' == UNKNOWN_STAGE || stage' >= stage)
    ensures Decide(party, stage', obs') == JoinLater(created) && s' == m
  {
    hide Apply, ApplyAll, RunsAlone, Decide;
    CreateEffect(a, party, stage, created, s, obs, m);
    hide Ran;
    SecondWaits(b, party, stage', created', m, obs', s', created, BirthPatch(stage).On(s.Hash(created)));
  }

  lemma SecondWaits(
      b: Joiner, party: Party, stage: int, created': Uuid, s: Store, obs: seq<Obs>, s': Store, created: Uuid, h: Hash)
    requires Ran(Start(b, party, stage, created'), s, obs, s')
    requires s.Challenges(party) != [] && s.Challenges(party)[|s.Challenges(party)| - 1] == created && s.Hash(created) == h
    requires h.state == Some(INITIALIZING) && h.completed == Some(false) && h.timeoutState == Some(NO_TIMEOUT)
    requires h.stage.Some? && (stage == UNKNOWN_STAGE || stage >= h.stage.value)
    ensures Decide(party, stage, obs) == JoinLater(created) && s' == s
  {
    hide Apply, ApplyAll, Decide;
    RanReads(Start(b, party, stage, created'), s, obs, s', created, 0);
    hide RunsAlone;
    WaitsForCreated(party, stage, obs, s, created, h);
    NoWrite(s);
  }

  // ---------------------------------------------------------------- timers that must not be missing

  /** After the check, a challenge nobody is active in has a timer. */
  lemma CheckActiveEffect(u: Uuid, s: Store, obs: seq<Obs>, s': Store)
    requires Ran(CheckActive(u), s, obs, s')
    ensures s'.Clients(u) == s.Clients(u)
    ensures AllInactive(s.Clients(u)) ==> u in s'.timeouts && TimeoutStateOf(s'.Hash(u)) != NO_TIMEOUT
    ensures !AllInactive(s.Clients(u)) || (u in s.timeouts && TimeoutStateOf(s.Hash(u)) != NO_TIMEOUT) ==> s' == s
  {
    hide Apply, ApplyAll, RunsAlone, AllInactive;
    RanReads(CheckActive(u), s, obs, s', u, 0);
    if Seen(obs, KeyTimeouts).Some? {
      SeenCurrent(obs, KeyTimeouts, s);
    }
    NoWrite(s);
    OneWrite(SetTimeout(u, CLEANUP_DUE, Timeout(3)), s);
    SetTimeoutApplied(u, CLEANUP_DUE, Timeout(3), s);
  }

  /** A cleanup that finds a stage being processed leaves the challenge as it is, with a timer to try again. */
  lemma CleanupPostponed(u: Uuid, due: Option<Timeout>, now: int, s: Store, obs: seq<Obs>, s': Store)
    requires Ran(Cleanup(u, due, now), s, obs, s') && (s.Hash(u).state == Some(ACTIVE) || s.Hash(u).state == Some(INITIALIZING))
    requires s.Hash(u).processing.Some? && now - s.Hash(u).processing.value < MAX_STAGE_PROCESSING_TIME
    ensures s'.Clients(u) == s.Clients(u) && SameLife(s, s', u) && s'.Hash(u).processing == s.Hash(u).processing
    ensures if due.Some? then TimesOut(s', u, TimeoutStateOf(s.Hash(u)), due.value)
      else TimeoutStateOf(s'.Hash(u)) != NO_TIMEOUT && TimesOut(s', u, TimeoutStateOf(s'.Hash(u)), Timeout(0))
  {
    hide Apply, ApplyAll, RunsAlone;
    RanReads(Cleanup(u, due, now), s, obs, s', u, 0);
    var state := if due.None? && TimeoutStateOf(s.Hash(u)) == NO_TIMEOUT then CHALLENGE_END else TimeoutStateOf(s.Hash(u));
    OneWrite(SetTimeout(u, state, due.GetOr(Timeout(0))), s);
    SetTimeoutApplied(u, state, due.GetOr(Timeout(0)), s);
  }

  /** The client with the stage it has just finished. */
  function FinishedClient(c: Client, update: StageUpdate): Client {
    c.(stage := update.stage, status := update.status, active := true, lastStage := update.stage, lastAttempt := c.attempt)
  }

  lemma FinishedOutcome(
      u: Uuid, c: ClientId, update: StageUpdate, retriable: int -> bool, h: Hash, clients: map<ClientId, Client>)
    requires IsFinished(update.status) && c in clients && update.stage >= PositionOf(h).stage
    ensures var o := StageOutcome(u, c, update, retriable, h, clients); var all := clients[c := FinishedClient(clients[c], update)];
      o.Applied? && o.client == FinishedClient(clients[c], update) && o.patch == NO_CHANGE &&
      if forall d :: d in all ==> HasFinished(PositionOf(h), all[d]) then
        o.finishing == Some((update.stage, clients[c].attempt)) &&
        o.timeout == if TimeoutStateOf(h) != CHALLENGE_END then ClearIt else LeaveTimeout
      else o.finishing.None? && o.timeout == if TimeoutStateOf(h) != STAGE_END then AwaitOthers else LeaveTimeout
  {
  }

  lemma FinishedWrites(u: Uuid, c: ClientId, update: Update, retriable: int -> bool, s: Store, obs: seq<Obs>, s': Store)
    requires Ran(ApplyUpdate(u, c, update, retriable), s, obs, s') && !update.entryMode && update.stage.Some?
    requires IsFinished(update.stage.value.status) && c in s.Clients(u) && s.Hash(u) != NO_HASH
    requires update.stage.value.stage >= PositionOf(s.Hash(u)).stage
    ensures HashSeen(obs, u) == Some(s.Hash(u)) && ClientsSeen(obs, u) == Some(s.Clients(u))
    ensures var o := StageOutcome(u, c, update.stage.value, retriable, s.Hash(u), s.Clients(u));
      o.Applied? &&
      var m := if s.Hash(u).timeoutState == Some(CLEANUP_DUE) then Apply(ClearTimeout(u), s) else s;
      var n := if o.timeout == ClearIt then Apply(ClearTimeout(u), m)
               else if o.timeout == AwaitOthers then Apply(SetTimeout(u, STAGE_END, Timeout(0)), m) else m;
      s' == Apply(SetClient(u, c, o.client), n)
  {
    hide Apply, ApplyAll, RunsAlone, StageOutcome;
    RanReads(ApplyUpdate(u, c, update, retriable), s, obs, s', u, c);
    var o := StageOutcome(u, c, update.stage.value, retriable, s.Hash(u), s.Clients(u));
    FinishedOutcome(u, c, update.stage.value, retriable, s.Hash(u), s.Clients(u));
    ActiveWrites(u, s.Hash(u), s);
    var active := ClearIfDue(u, s.Hash(u)) + [RefreshSession];
    assert Act(ApplyUpdate(u, c, update, retriable), obs).writes == active + StageWrites(u, c, o);
    hide Act, ClearIfDue;
    var first := if o.timeout == ClearIt then [ClearTimeout(u)]
                 else if o.timeout == AwaitOthers then [SetTimeout(u, STAGE_END, Timeout(0))] else [];
    assert StageWrites(u, c, o) == first + [SetClient(u, c, o.client)];
    var m := ApplyAll(active, s);
    WritesInTurn(active, StageWrites(u, c, o), s);
    WritesInTurn(first, [SetClient(u, c, o.client)], m);
    OneWrite(ClearTimeout(u), m);
    OneWrite(SetTimeout(u, STAGE_END, Timeout(0)), m);
    NoWrite(m);
    OneWrite(SetClient(u, c, o.client), ApplyAll(first, m));
  }

  lemma FinishedNext(u: Uuid, c: ClientId, update: Update, retriable: int -> bool, obs: seq<Obs>, next: Option<Job>)
    requires !update.entryMode && update.stage.Some? && HashSeen(obs, u).Some? && HashSeen(obs, u).value != NO_HASH
    requires ClientsSeen(obs, u).Some? && Next(ApplyUpdate(u, c, update, retriable), obs, next)
    ensures var o := StageOutcome(u, c, update.stage.value, retriable, HashSeen(obs, u).value, ClientsSeen(obs, u).value);
      if o.Applied? && o.finishing.Some? then
        next.Some? && next.value.MarkProcessing? && next.value.u == u &&
        (next.value.stage, next.value.attempt) == o.finishing.value
      else next.None?
  {
    hide StageOutcome;
  }

  lemma FinishedStore(u: Uuid, c: ClientId, client: Client, timeout: TimeoutAction, s: Store, s': Store)
    requires var m := if s.Hash(u).timeoutState == Some(CLEANUP_DUE) then Apply(ClearTimeout(u), s) else s;
      var n := if timeout == ClearIt then Apply(ClearTimeout(u), m)
               else if timeout == AwaitOthers then Apply(SetTimeout(u, STAGE_END, Timeout(0)), m) else m;
      s' == Apply(SetClient(u, c, client), n)
    ensures s'.Clients(u) == s.Clients(u)[c := client]
    ensures timeout == ClearIt ==> s'.Hash(u).timeoutState == Some(NO_TIMEOUT)
    ensures timeout == AwaitOthers ==> s'.Hash(u).timeoutState == Some(STAGE_END) && u in s'.timeouts
    ensures timeout == LeaveTimeout && s.Hash(u).timeoutState != Some(CLEANUP_DUE) ==>
      s'.Hash(u).timeoutState == s.Hash(u).timeoutState && s'.timeouts == s.timeouts
  {
    hide Apply;
    var m := if s.Hash(u).timeoutState == Some(CLEANUP_DUE) then Apply(ClearTimeout(u), s) else s;
    ClearTimeoutApplied(u, s);
    ClearTimeoutApplied(u, m);
    SetTimeoutApplied(u, STAGE_END, Timeout(0), m);
    var n := if timeout == ClearIt then Apply(ClearTimeout(u), m)
             else if timeout == AwaitOthers then Apply(SetTimeout(u, STAGE_END, Timeout(0)), m) else m;
    SetClientApplied(u, c, client, n);
  }

  /**
   * A finished stage is recorded with the client and never forgotten: if every client has finished it,
   * the job goes on to complete it; otherwise the stage end timer runs.
   */
  lemma FinishedIsFollowed(
      u: Uuid, c: ClientId, update: Update, retriable: int -> bool, s: Store, born: set<Uuid>, obs: seq<Obs>, s': Store,
      next: Option<Job>)
    requires Ran(ApplyUpdate(u, c, update, retriable), s, obs, s') && !update.entryMode && update.stage.Some?
    requires IsFinished(update.stage.value.status) && c in s.Clients(u) && s.Hash(u) != NO_HASH && StoreOk(s, born)
    requires update.stage.value.stage >= PositionOf(s.Hash(u)).stage && Next(ApplyUpdate(u, c, update, retriable), obs, next)
    ensures s'.Clients(u) == s.Clients(u)[c := FinishedClient(s.Clients(u)[c], update.stage.value)]
    ensures if forall d :: d in s'.Clients(u) ==> HasFinished(PositionOf(s.Hash(u)), s'.Clients(u)[d]) then
        next.Some? && next.value.MarkProcessing? && next.value.u == u && next.value.stage == update.stage.value.stage &&
        next.value.attempt == s.Clients(u)[c].attempt && TimeoutStateOf(s'.Hash(u)) != STAGE_END
      else next.None? && s'.Hash(u).timeoutState == Some(STAGE_END) && u in s'.timeouts
  {
    hide Apply, Ran, StageOutcome, StoreOk, HasFinished, Next;
    FinishedWrites(u, c, update, retriable, s, obs, s');
    FinishedNext(u, c, update, retriable, obs, next);
    FinishedOutcome(u, c, update.stage.value, retriable, s.Hash(u), s.Clients(u));
    StatesAreEntered(s, born, u);
    var o := StageOutcome(u, c, update.stage.value, retriable, s.Hash(u), s.Clients(u));
    FinishedStore(u, c, o.client, o.timeout, s, s');
  }

  ghost function StageOf(h: Hash): int {
    if h.stage.Some? then h.stage.value else 0
  }

  /** The client is done with the challenge's stage: past it, or finished at its attempt. */
  ghost predicate DoneWith(h: Hash, c: Client) {
    c.stage > StageOf(h) ||
    ((c.status == COMPLETED || c.status == WIPED) &&
     (h.attempt.None? || (c.attempt.Some? && c.attempt.value >= h.attempt.value)))
  }

  lemma DoneIs(h: Hash, clients: map<ClientId, Client>)
    ensures forall d :: d in clients ==> (HasFinished(PositionOf(h), clients[d]) <==> DoneWith(h, clients[d]))
  {
  }

  lemma StatesAreEntered(s: Store, born: set<Uuid>, u: Uuid)
    requires StoreOk(s, born)
    ensures TimeoutStateOf(s.Hash(u)) != NO_TIMEOUT ==> u in s.timeouts
  {
    assert ChallengeOk(s, born, u);
  }

  // ---------------------------------------------------------------- the stage end timer

  /** The stage and attempt to complete when a stage's time is up, taken client by client. */
  function LastCompleted(clients: seq<Client>): (int, Option<int>) {
    if clients == [] then (UNKNOWN_STAGE, None)
    else
      var acc, c := LastCompleted(clients[..|clients| - 1]), clients[|clients| - 1];
      if c.lastStage > acc.0 then (c.lastStage, c.lastAttempt)
      else if c.lastStage == acc.0 then (acc.0, MaxAttempt(acc.1, c.lastAttempt))
      else acc
  }

  lemma {:induction false} LastCompletedBounds(clients: seq<Client>)
    ensures var (stage, attempt) := LastCompleted(clients);
      stage >= UNKNOWN_STAGE && (forall c :: c in clients ==> c.lastStage <= stage) &&
      (stage == UNKNOWN_STAGE || exists c :: c in clients && c.lastStage == stage) &&
      (forall c :: c in clients && c.lastStage == stage ==> AttemptLe(c.lastAttempt, attempt)) &&
      (attempt.None? || exists c :: c in clients && c.lastStage == stage && c.lastAttempt == attempt)
  {
    if clients != [] {
      var init, last := clients[..|clients| - 1], clients[|clients| - 1];
      LastCompletedBounds(init);
      assert clients == init + [last];
    }
  }

  /** The order in which the clients are taken does not matter: the result is the one latest stage and attempt. */
  lemma LastCompletedIsLatest(clients: map<ClientId, Client>, order: seq<Client>, stage: int, attempt: Option<int>)
    requires forall x :: x in order <==> exists c :: c in clients && clients[c] == x
    ensures IsLastCompleted(clients, stage, attempt) <==> LastCompleted(order) == (stage, attempt)
  {
    LastCompletedBounds(order);
    hide LastCompleted;
    var (s, a) := LastCompleted(order);
    assert forall c :: c in clients ==> clients[c] in order;
    assert IsLastCompleted(clients, stage, attempt) ==> stage == s && AttemptLe(attempt, a) && AttemptLe(a, attempt);
  }

  // ---------------------------------------------------------------- every commit is sent

  /** Whatever a job commits includes a command, so its EXEC is not skipped. */
  lemma EveryCommitIsSent(j: Job, obs: seq<Obs>)
    requires Act(j, obs).Commit? && Act(j, obs).writes != []
    ensures AllCommands(Act(j, obs).writes) > 0
  {
    hide Decide, UpdateStage, CleanupOutcome, AllCommands;
    var ws := Act(j, obs).writes;
    assert Commands(ws[0]) > 0;
    SomeCommand(ws);
  }

  lemma {:induction false} SomeCommand(ws: seq<Write>)
    requires ws != [] && Commands(ws[0]) > 0
    ensures AllCommands(ws) > 0
    decreases |ws|
  {
    if |ws| > 1 {
      SomeCommand(ws[..|ws| - 1]);
    }
  }
}
