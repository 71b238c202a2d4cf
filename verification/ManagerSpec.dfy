/**
 * What each job of the challenge manager does, as a change of the store: a reference written without
 * transactions, readings or writes. Every commit of every run is shown to be exactly that change.
 */
module ManagerSpec {
  import opened Options
  import opened RedisStore
  import opened ChallengeStage
  import opened Transactions
  import opened ManagerJobs
  import opened LifecycleStore
  import opened ManagerCommits
  import opened ManagerEffects
  import opened ChallengeLifecycle
  import opened ManagerRuns

  // ---------------------------------------------------------------- changes of the store

  ghost function WithHash(s: Store, u: Uuid, h: Hash): Store {
    s.(hashes := s.hashes[u := h])
  }

  ghost function WithTimer(s: Store, u: Uuid, state: TimeoutState, timeout: Timeout): Store {
    s.(hashes := s.hashes[u := s.Hash(u).(timeoutState := Some(state))], timeouts := s.timeouts[u := timeout])
  }

  ghost function WithoutTimer(s: Store, u: Uuid): Store {
    s.(hashes := s.hashes[u := s.Hash(u).(timeoutState := Some(NO_TIMEOUT))], timeouts := s.timeouts - {u})
  }

  /** A cleanup that is due is called off. */
  ghost function Active(s: Store, u: Uuid): Store {
    if s.Hash(u).timeoutState == Some(CLEANUP_DUE) then WithoutTimer(s, u) else s
  }

  ghost function WithClient(s: Store, u: Uuid, c: ClientId, client: Client): Store {
    s.(clients := s.clients[u := s.Clients(u)[c := client]], pointers := s.pointers[c := u])
  }

  ghost function WithoutClient(s: Store, u: Uuid, c: ClientId): Store {
    s.(clients := s.clients[u := map d | d in s.Clients(u) && d != c :: s.Clients(u)[d]],
       pointers := if c in s.pointers && s.pointers[c] == u then s.pointers - {c} else s.pointers)
  }

  /** The client comes in at a stage and attempt; one that was in before keeps what it last completed. */
  ghost function Entering(s: Store, u: Uuid, joiner: Joiner, stage: int, attempt: Option<int>): Store {
    WithClient(s, u, joiner.c,
               if joiner.c in s.Clients(u) then
                 var was := s.Clients(u)[joiner.c];
                 Client(joiner.token, was.participant, true, stage, attempt, ENTERED, was.lastStage, was.lastAttempt)
               else Client(joiner.token, joiner.participant, true, stage, attempt, ENTERED, 0, None))
  }

  /** Nothing is left of the challenge, and its first place in the party's list is gone. */
  ghost function Deleted(s: Store, u: Uuid, party: Option<Party>): Store {
    var kept := s.(hashes := s.hashes - {u}, clients := s.clients - {u},
                   processed := s.processed - {u}, timeouts := s.timeouts - {u});
    if party.None? then kept
    else
      var all := s.Challenges(party.value);
      kept.(parties := s.parties[party.value := if u in all then WithoutFirst(all, u) else all])
  }

  ghost function FirstPlace(all: seq<Uuid>, u: Uuid): (i: nat)
    requires u in all
    ensures i < |all| && all[i] == u && u !in all[..i]
  {
    if all[0] == u then 0
    else
      var i := FirstPlace(all[1..], u) + 1;
      assert all[..i] == [all[0]] + all[1..][..i - 1];
      i
  }

  ghost function WithoutFirst(all: seq<Uuid>, u: Uuid): seq<Uuid>
    requires u in all
  {
    var i := FirstPlace(all, u); all[..i] + all[i + 1..]
  }

  /** Nobody but possibly one client is active. */
  ghost predicate NobodyActiveBut(s: Store, u: Uuid, but: Option<ClientId>) {
    forall c :: c in s.Clients(u) && Some(c) != but ==> !s.Clients(u)[c].active
  }

  ghost predicate NoTimer(h: Hash) {
    h.timeoutState.None? || h.timeoutState == Some(NO_TIMEOUT)
  }

  // ---------------------------------------------------------------- joining

  /** The challenge can still be told to be over or not. */
  ghost predicate Usable(h: Hash) {
    (h.state == Some(INITIALIZING) || h.state == Some(ACTIVE)) && h.completed.Some? && h.stage.Some?
  }

  /** A client that starts at the stage belongs to this challenge. */
  ghost predicate Open(h: Hash, stage: int) {
    Usable(h) && h.completed == Some(false) && h.timeoutState != Some(CHALLENGE_END) && (stage == 0 || stage >= h.stage.value)
  }

  ghost predicate HasOpen(s: Store, party: Party, stage: int) {
    var all := s.Challenges(party);
    all != [] && Open(s.Hash(all[|all| - 1]), stage)
  }

  ghost function AfterStart(s: Store, joiner: Joiner, party: Party, stage: int, created: Uuid): Store {
    var all := s.Challenges(party);
    if HasOpen(s, party, stage) then
      var last := all[|all| - 1]; var h := s.Hash(last);
      if h.state == Some(ACTIVE) then Active(Entering(s, last, joiner, h.stage.value, h.attempt), last) else Active(s, last)
    else
      var kept := if all != [] && !Usable(s.Hash(all[|all| - 1])) then all[..|all| - 1] else all;
      WithHash(s.(parties := s.parties[party := kept + [created]]), created,
               s.Hash(created).(state := Some(INITIALIZING), timeoutState := Some(NO_TIMEOUT), stage := Some(stage),
                                completed := Some(false)))
  }

  ghost function AfterActivate(s: Store, u: Uuid, joiner: Joiner, party: Party, stage: int): Store {
    var h := s.Hash(u).(state := Some(ACTIVE), stage := Some(stage), attempt := None, completed := Some(false),
                        party := Some(party));
    Entering(WithHash(s, u, h), u, joiner, stage, None)
  }

  ghost function AfterJoin(s: Store, u: Uuid, joiner: Joiner): Store {
    if s.Hash(u).state == Some(ACTIVE) then Entering(s, u, joiner, StageOf(s.Hash(u)), s.Hash(u).attempt) else s
  }

  ghost function AfterAdd(s: Store, u: Uuid, joiner: Joiner): Store {
    if NobodyActiveBut(s, u, None) && s.Hash(u).state == Some(ACTIVE) then Active(AfterJoin(s, u, joiner), u)
    else AfterJoin(s, u, joiner)
  }

  // ---------------------------------------------------------------- updates

  ghost predicate Finishes(update: StageUpdate) {
    update.status == COMPLETED || update.status == WIPED
  }

  /** The record of a client that has finished a stage. */
  ghost function Finisher(c: Client, update: StageUpdate): Client {
    Client(c.token, c.participant, true, update.stage, c.attempt, update.status, update.stage, c.attempt)
  }

  /** Every other client is done with the stage, and so is this one with its update. */
  ghost predicate AllDone(s: Store, u: Uuid, c: ClientId, update: StageUpdate)
    requires c in s.Clients(u)
  {
    DoneWith(s.Hash(u), Finisher(s.Clients(u)[c], update)) &&
    forall d :: d in s.Clients(u) && d != c ==> DoneWith(s.Hash(u), s.Clients(u)[d])
  }

  ghost function AfterFinished(s: Store, u: Uuid, c: ClientId, update: StageUpdate): Store
    requires c in s.Clients(u)
  {
    var t := WithClient(Active(s, u), u, c, Finisher(s.Clients(u)[c], update));
    if AllDone(s, u, c, update) then
      if s.Hash(u).timeoutState == Some(CHALLENGE_END) then t else WithoutTimer(t, u)
    else if s.Hash(u).timeoutState == Some(STAGE_END) then t else WithTimer(t, u, STAGE_END, Timeout(0))
  }

  /** The attempt of the challenge once a client has started a stage. */
  ghost function AttemptAfter(h: Hash, c: Client, stage: int, retriable: int -> bool): Option<int> {
    if stage != StageOf(h) then if retriable(stage) then Some(1) else None
    else if retriable(stage) && h.attempt.Some? && c.attempt == h.attempt then Some(h.attempt.value + 1)
    else h.attempt
  }

  ghost function AfterStarted(s: Store, u: Uuid, c: ClientId, stage: int, retriable: int -> bool): Store
    requires c in s.Clients(u)
  {
    var was := s.Clients(u)[c];
    var attempt := AttemptAfter(s.Hash(u), was, stage, retriable);
    var t := WithClient(Active(s, u), u, c,
                        Client(was.token, was.participant, true, stage, attempt, STARTED, was.lastStage, was.lastAttempt));
    WithHash(t, u, if stage != StageOf(s.Hash(u)) then t.Hash(u).(stage := Some(stage), attempt := attempt)
                   else t.Hash(u).(attempt := attempt))
  }

  ghost function AfterUpdate(s: Store, u: Uuid, c: ClientId, update: Update, retriable: int -> bool): Store {
    if s.Hash(u) == NO_HASH then s
    else if update.entryMode || update.stage.None? || update.stage.value.stage < StageOf(s.Hash(u)) || c !in s.Clients(u) then
      Active(s, u)
    else if Finishes(update.stage.value) then AfterFinished(s, u, c, update.stage.value)
    else if update.stage.value.status == STARTED then AfterStarted(s, u, c, update.stage.value.stage, retriable)
    else
      var was, stage := s.Clients(u)[c], update.stage.value.stage;
      WithClient(Active(s, u), u, c,
                 Client(was.token, was.participant, true, stage, was.attempt, ENTERED, was.lastStage, was.lastAttempt))
  }

  // ---------------------------------------------------------------- leaving

  ghost predicate Only(s: Store, u: Uuid, c: ClientId) {
    forall d :: d in s.Clients(u) ==> d == c
  }

  ghost function AfterFinish(s: Store, u: Uuid, c: ClientId, soft: bool, reported: bool): Store {
    if s.Pointer(c) != Some(u) then s
    else if s.Hash(u).state != Some(ACTIVE) || c !in s.Clients(u) then WithoutClient(s, u, c)
    else if Only(s, u, c) || (s.Clients(u)[c].participant && !soft) || reported ||
            s.Hash(u).timeoutState == Some(CHALLENGE_END) then
      WithTimer(WithoutClient(s, u, c), u, CHALLENGE_END, Timeout(3))
    else WithTimer(WithoutClient(s, u, c), u, CLEANUP_DUE, Timeout(1))
  }

  ghost function AfterActive(s: Store, u: Uuid, c: ClientId, token: int): Store {
    if c !in s.Clients(u) || s.Clients(u)[c].token != token then s
    else if s.Pointer(c) != Some(u) || s.Hash(u) == NO_HASH then WithoutClient(s, u, c)
    else if s.Clients(u)[c].active then s
    else Active(WithClient(s, u, c, s.Clients(u)[c].(active := true)), u)
  }

  ghost function AfterInactive(s: Store, u: Uuid, c: ClientId, token: int): Store {
    if c !in s.Clients(u) then WithoutClient(s, u, c)
    else if s.Clients(u)[c].token != token then s
    else if s.Pointer(c) != Some(u) || s.Hash(u) == NO_HASH then WithoutClient(s, u, c)
    else if !s.Clients(u)[c].active then s
    else
      var t := WithClient(s, u, c, s.Clients(u)[c].(active := false));
      if NobodyActiveBut(s, u, Some(c)) && NoTimer(s.Hash(u)) then WithTimer(t, u, CLEANUP_DUE, Timeout(0)) else t
  }

  ghost function AfterRemove(s: Store, u: Uuid, c: ClientId, token: int): Store {
    if c !in s.Clients(u) || s.Clients(u)[c].token != token then s
    else if Only(s, u, c) && (s.Hash(u).state == Some(ACTIVE) || s.Hash(u).state == Some(INITIALIZING)) then
      WithTimer(WithoutClient(s, u, c), u, CLEANUP_DUE, Timeout(3))
    else WithoutClient(s, u, c)
  }

  // ---------------------------------------------------------------- completing a stage

  ghost function AfterClaim(s: Store, u: Uuid, stage: int, attempt: Option<int>, now: int): Store {
    if (stage, attempt) in s.Processed(u) then s
    else WithHash(s.(processed := s.processed[u := s.Processed(u) + {(stage, attempt)}]), u, s.Hash(u).(processing := Some(now)))
  }

  ghost function AfterMerge(s: Store, u: Uuid, completed: Change<bool>): Store {
    var h := s.Hash(u);
    WithHash(s, u, h.(processing := None,
                      completed := if completed.Put? then Some(completed.value)
                                   else if completed.Clear? then None else h.completed))
  }

  // ---------------------------------------------------------------- cleaning up

  /** A stage is being processed, and not yet for too long. */
  ghost predicate Busy(h: Hash, now: int) {
    h.processing.Some? && now - h.processing.value < 30 * 1000
  }

  ghost predicate Ending(h: Hash) {
    h.timeoutState == Some(CLEANUP_DUE) || h.timeoutState == Some(CHALLENGE_END)
  }

  /** The cleanup wins the challenge. */
  ghost predicate Wins(s: Store, u: Uuid, due: Option<Timeout>, now: int) {
    var h := s.Hash(u);
    (h.state == Some(ACTIVE) || h.state == Some(INITIALIZING)) && !Busy(h, now) &&
    (due.None? || (Ending(h) && (due.value.maxRetryAttempts == 0 || s.Clients(u) == map[])))
  }

  ghost function AfterCleanup(s: Store, u: Uuid, due: Option<Timeout>, now: int): Store {
    var h := s.Hash(u);
    if h.state.None? || h.state == Some(CLEANUP) then s
    else if Busy(h, now) then
      WithTimer(s, u, if !NoTimer(h) then h.timeoutState.value else if due.Some? then NO_TIMEOUT else CHALLENGE_END,
                if due.Some? then due.value else Timeout(0))
    else if Wins(s, u, due, now) then WithHash(s, u, h.(state := Some(CLEANUP), processing := None))
    else if due.Some? && due.value.maxRetryAttempts > 0 && Ending(h) then
      WithTimer(s, u, h.timeoutState.value, Timeout(due.value.maxRetryAttempts - 1))
    else s
  }

  ghost function AfterCheck(s: Store, u: Uuid): Store {
    if NobodyActiveBut(s, u, None) && (u !in s.timeouts || NoTimer(s.Hash(u))) then WithTimer(s, u, CLEANUP_DUE, Timeout(3))
    else s
  }

  /** What a job makes of the store. */
  ghost function After(j: Job, s: Store): Store {
    match j
    case Start(joiner, party, stage, created) => AfterStart(s, joiner, party, stage, created)
    case Activate(u, joiner, party, stage) => AfterActivate(s, u, joiner, party, stage)
    case AbortCreate(u, party) => Deleted(s, u, Some(party))
    case Join(u, joiner, _) => AfterJoin(s, u, joiner)
    case Add(u, joiner) => AfterAdd(s, u, joiner)
    case ApplyUpdate(u, c, update, retriable) => AfterUpdate(s, u, c, update, retriable)
    case MarkProcessing(u, _, _, now) => WithHash(s, u, s.Hash(u).(processing := Some(now)))
    case Finish(u, c, soft, reported) => AfterFinish(s, u, c, soft, reported)
    case SetActive(u, c, token) => AfterActive(s, u, c, token)
    case SetInactive(u, c, token) => AfterInactive(s, u, c, token)
    case Remove(u, c, token) => AfterRemove(s, u, c, token)
    case ClearStageEnd(u, _, _, _) => WithoutTimer(s, u)
    case ClearStale(u) => WithoutTimer(s, u)
    case Claim(u, stage, attempt, now, _) => AfterClaim(s, u, stage, attempt, now)
    case Merge(u, _, _, completed, _) => AfterMerge(s, u, completed)
    case CheckActive(u) => AfterCheck(s, u)
    case Cleanup(u, due, now) => AfterCleanup(s, u, due, now)
    case OwnerDelete(u, party) => Deleted(s, u, party)
    case Delete(u, party) => Deleted(s, u, party)
    case _ => s
  }

  // ---------------------------------------------------------------- single writes

  lemma SetFieldsIs(u: Uuid, p: Patch, s: Store)
    ensures ApplyAll([SetFields(u, p)], s) == WithHash(s, u, p.On(s.Hash(u)))
  {
    OneWrite(SetFields(u, p), s);
  }

  lemma TimerIs(u: Uuid, state: TimeoutState, timeout: Timeout, s: Store)
    ensures Apply(SetTimeout(u, state, timeout), s) == WithTimer(s, u, state, timeout)
    ensures Apply(ClearTimeout(u), s) == WithoutTimer(s, u)
  {
  }

  lemma ClientIs(u: Uuid, c: ClientId, client: Client, s: Store)
    ensures Apply(SetClient(u, c, client), s) == WithClient(s, u, c, client)
    ensures Apply(RemoveClient(u, c), s) == WithoutClient(s, u, c)
  {
    assert s.Clients(u) - {c} == map d | d in s.Clients(u) && d != c :: s.Clients(u)[d];
  }

  lemma {:induction false} RemoveFirstIs(all: seq<Uuid>, u: Uuid)
    ensures RemoveFirst(all, u) == if u in all then WithoutFirst(all, u) else all
  {
    if all != [] && all[0] != u {
      var rest := all[1..];
      RemoveFirstIs(rest, u);
      assert [all[0]] + rest == all;
      if u in all {
        var i := FirstPlace(rest, u);
        assert all[..i + 1] == [all[0]] + rest[..i] && all[i + 2..] == rest[i + 1..];
      }
    }
  }

  lemma DeletedIs(u: Uuid, party: Option<Party>, s: Store)
    ensures ApplyAll([DeleteData(u, party)], s) == Deleted(s, u, party)
  {
    OneWrite(DeleteData(u, party), s);
    if party.Some? {
      RemoveFirstIs(s.Challenges(party.value), u);
    }
    hide RemoveFirst;
  }

  lemma JoinedIs(u: Uuid, joiner: Joiner, stage: int, attempt: Option<int>, s: Store)
    ensures Apply(SetClient(u, joiner.c, Joined(s.Clients(u), joiner, stage, attempt)), s) ==
      Entering(s, u, joiner, stage, attempt)
  {
  }

  // ---------------------------------------------------------------- the jobs

  lemma StartReads(party: Party, stage: int, s: Store, obs: seq<Obs>)
    requires Current(obs, s) && !Decide(party, stage, obs).Undecided?
    ensures var all := s.Challenges(party);
      Decide(party, stage, obs) ==
      if !HasOpen(s, party, stage) then CreateNew(all != [] && !Usable(s.Hash(all[|all| - 1])))
      else if s.Hash(all[|all| - 1]).state == Some(ACTIVE) then JoinNow(all[|all| - 1]) else JoinLater(all[|all| - 1])
    ensures Decide(party, stage, obs).CreateNew? || HashSeen(obs, s.Challenges(party)[|s.Challenges(party)| - 1]).Some?
  {
    if Seen(obs, KeyParty(party)).Some? {
      SeenCurrent(obs, KeyParty(party), s);
      var all := s.Challenges(party);
      if all != [] {
        ChallengeSeen(obs, all[|all| - 1], s);
        OtherState(s.Hash(all[|all| - 1]));
      }
    }
  }

  lemma CreateIs(joiner: Joiner, party: Party, stage: int, created: Uuid, s: Store, pop: bool)
    requires !HasOpen(s, party, stage)
    requires var all := s.Challenges(party); pop <==> all != [] && !Usable(s.Hash(all[|all| - 1]))
    ensures
      ApplyAll((if pop then [PopParty(party)] else []) + [PushParty(party, created), SetFields(created, BirthPatch(stage))], s) ==
      AfterStart(s, joiner, party, stage, created)
  {
    var first, rest := if pop then [PopParty(party)] else [], [PushParty(party, created), SetFields(created, BirthPatch(stage))];
    WritesInTurn(first, rest, s);
    OneWrite(PopParty(party), s);
    NoWrite(s);
    TwoApplied(PushParty(party, created), SetFields(created, BirthPatch(stage)), ApplyAll(first, s));
    hide ApplyAll;
  }

  lemma StartIs(joiner: Joiner, party: Party, stage: int, created: Uuid, s: Store, obs: seq<Obs>, s': Store)
    requires Ran(Start(joiner, party, stage, created), s, obs, s')
    ensures s' == AfterStart(s, joiner, party, stage, created)
  {
    var all := s.Challenges(party);
    RanReads(Start(joiner, party, stage, created), s, obs, s', if all == [] then 0 else all[|all| - 1], 0);
    StartReads(party, stage, s, obs);
    hide Apply, ApplyAll, RunsAlone, Decide, Joined, Open, Usable;
    match Decide(party, stage, obs)
    case CreateNew(pop) => CreateIs(joiner, party, stage, created, s, pop);
    case JoinLater(last) => CallOffIs(last, s);
    case JoinNow(last) => JoinNowIs(joiner, last, s);
  }

  lemma CallOffIs(u: Uuid, s: Store)
    ensures ApplyAll(ClearIfDue(u, s.Hash(u)), s) == Active(s, u)
  {
    OneWrite(ClearTimeout(u), s);
    NoWrite(s);
    hide ApplyAll;
  }

  lemma JoinNowIs(joiner: Joiner, u: Uuid, s: Store)
    ensures var p := PositionOf(s.Hash(u));
      var w := SetClient(u, joiner.c, Joined(s.Clients(u), joiner, p.stage, p.attempt));
      ApplyAll([w, RefreshSession] + ClearIfDue(u, s.Hash(u)), s) ==
      Active(Entering(s, u, joiner, StageOf(s.Hash(u)), s.Hash(u).attempt), u)
  {
    hide Apply, ApplyAll, Joined;
    var p := PositionOf(s.Hash(u));
    var w := SetClient(u, joiner.c, Joined(s.Clients(u), joiner, p.stage, p.attempt));
    var t := Entering(s, u, joiner, StageOf(s.Hash(u)), s.Hash(u).attempt);
    JoinedIs(u, joiner, p.stage, p.attempt, s);
    WritesInTurn([w, RefreshSession], ClearIfDue(u, s.Hash(u)), s);
    TwoApplied(w, RefreshSession, s);
    RefreshApplied(t);
    CallOffIs(u, t);
  }

  lemma EnterIs(u: Uuid, joiner: Joiner, stage: int, attempt: Option<int>, s: Store)
    ensures ApplyAll([SetClient(u, joiner.c, Joined(s.Clients(u), joiner, stage, attempt))], s) ==
      Entering(s, u, joiner, stage, attempt)
  {
    JoinedIs(u, joiner, stage, attempt, s);
    OneWrite(SetClient(u, joiner.c, Joined(s.Clients(u), joiner, stage, attempt)), s);
  }

  lemma ActivateIs(u: Uuid, joiner: Joiner, party: Party, stage: int, s: Store, obs: seq<Obs>, s': Store)
    requires Ran(Activate(u, joiner, party, stage), s, obs, s')
    ensures s' == AfterActivate(s, u, joiner, party, stage)
  {
    RanReads(Activate(u, joiner, party, stage), s, obs, s', u, joiner.c);
    var w := SetFields(u, ActivePatch(stage, party));
    var client := Joined(s.Clients(u), joiner, stage, None);
    assert Act(Activate(u, joiner, party, stage), obs).writes == [w, SetClient(u, joiner.c, client)];
    hide Act, ApplyAll, RunsAlone, Joined;
    TwoApplied(w, SetClient(u, joiner.c, client), s);
    JoinedIs(u, joiner, stage, None, Apply(w, s));
  }

  lemma JoinIs(u: Uuid, joiner: Joiner, retries: nat, s: Store, obs: seq<Obs>, s': Store)
    requires Ran(Join(u, joiner, retries), s, obs, s')
    ensures s' == AfterJoin(s, u, joiner)
  {
    RanReads(Join(u, joiner, retries), s, obs, s', u, joiner.c);
    hide Apply, ApplyAll, RunsAlone, Joined;
    var p := PositionOf(s.Hash(u));
    EnterIs(u, joiner, p.stage, p.attempt, s);
    NoWrite(s);
  }

  lemma AddIs(u: Uuid, joiner: Joiner, s: Store, obs: seq<Obs>, s': Store)
    requires Ran(Add(u, joiner), s, obs, s')
    ensures s' == AfterAdd(s, u, joiner)
  {
    if s.Hash(u).state == Some(ACTIVE) {
      AddWrites(u, joiner, s, obs, s');
      hide Ran, Apply, Joined;
      var p := PositionOf(s.Hash(u));
      JoinedIs(u, joiner, p.stage, p.attempt, s);
      var t := Entering(s, u, joiner, p.stage, p.attempt);
      TimerIs(u, CLEANUP_DUE, Timeout(0), t);
      NobodyIs(s, u);
    } else {
      RanReads(Add(u, joiner), s, obs, s', u, joiner.c);
      hide ApplyAll, RunsAlone;
      NoWrite(s);
    }
  }

  lemma NobodyIs(s: Store, u: Uuid)
    ensures AllInactive(s.Clients(u)) <==> NobodyActiveBut(s, u, None)
    ensures forall c :: c in s.Clients(u) ==>
      (AllInactive(s.Clients(u)[c := s.Clients(u)[c].(active := false)]) <==> NobodyActiveBut(s, u, Some(c)))
  {
    forall c | c in s.Clients(u)
      ensures AllInactive(s.Clients(u)[c := s.Clients(u)[c].(active := false)]) <==> NobodyActiveBut(s, u, Some(c))
    {
      var after := s.Clients(u)[c := s.Clients(u)[c].(active := false)];
      assert forall d :: d in s.Clients(u) && d != c ==> d in after && after[d] == s.Clients(u)[d];
    }
  }

  lemma MarkIs(u: Uuid, stage: int, attempt: Option<int>, now: int, s: Store, obs: seq<Obs>, s': Store)
    requires Ran(MarkProcessing(u, stage, attempt, now), s, obs, s')
    ensures s' == WithHash(s, u, s.Hash(u).(processing := Some(now)))
  {
    hide RunsAlone, ApplyAll;
    SetFieldsIs(u, ProcessingPatch(now), s);
  }

  lemma MergeIs(
      u: Uuid, stage: int, attempt: Option<int>, completed: Change<bool>, andThen: Then, s: Store, obs: seq<Obs>, s': Store)
    requires Ran(Merge(u, stage, attempt, completed, andThen), s, obs, s')
    ensures s' == AfterMerge(s, u, completed)
  {
    hide RunsAlone, ApplyAll;
    SetFieldsIs(u, NO_CHANGE.(processing := Clear, completed := completed), s);
  }

  lemma ClearIs(j: Job, s: Store, obs: seq<Obs>, s': Store)
    requires (j.ClearStageEnd? || j.ClearStale?) && Ran(j, s, obs, s')
    ensures s' == WithoutTimer(s, j.u)
  {
    assert Act(j, obs).writes == [ClearTimeout(j.u)];
    hide Act, RunsAlone, ApplyAll;
    OneWrite(ClearTimeout(j.u), s);
  }

  lemma DeleteIs(j: Job, s: Store, obs: seq<Obs>, s': Store)
    requires (j.AbortCreate? || j.OwnerDelete? || j.Delete?) && Ran(j, s, obs, s')
    ensures s' == Deleted(s, j.u, if j.AbortCreate? then Some(j.party) else j.ofParty)
  {
    var party := if j.AbortCreate? then Some(j.party) else j.ofParty;
    assert Act(j, obs).writes == [DeleteData(j.u, party)];
    hide Act, RunsAlone, ApplyAll, Deleted;
    DeletedIs(j.u, party, s);
  }

  lemma ClaimActs(u: Uuid, stage: int, attempt: Option<int>, now: int, andThen: Then, s: Store, obs: seq<Obs>, s': Store)
    requires Ran(Claim(u, stage, attempt, now, andThen), s, obs, s')
    ensures s' == ApplyAll(if (stage, attempt) in s.Processed(u) then []
                           else [SetProcessed(u, stage, attempt), SetFields(u, ProcessingPatch(now))], s)
  {
    hide ApplyAll;
    RanReads(Claim(u, stage, attempt, now, andThen), s, obs, s', u, 0);
    if Seen(obs, KeyProcessed(u)).Some? {
      SeenCurrent(obs, KeyProcessed(u), s);
    }
  }

  lemma ClaimIs(u: Uuid, stage: int, attempt: Option<int>, now: int, andThen: Then, s: Store, obs: seq<Obs>, s': Store)
    requires Ran(Claim(u, stage, attempt, now, andThen), s, obs, s')
    ensures s' == AfterClaim(s, u, stage, attempt, now)
  {
    ClaimActs(u, stage, attempt, now, andThen, s, obs, s');
    hide Ran, ApplyAll;
    NoWrite(s);
    TwoApplied(SetProcessed(u, stage, attempt), SetFields(u, ProcessingPatch(now)), s);
  }

  lemma OnlyIs(s: Store, u: Uuid, c: ClientId)
    requires c in s.Clients(u)
    ensures Only(s, u, c) <==> |s.Clients(u)| <= 1
    ensures |s.Clients(u)| >= 1
  {
    LastClient(s.Clients(u), c);
    var rest := s.Clients(u) - {c};
    assert forall d :: d in rest <==> d in s.Clients(u) && d != c;
    assert rest == map[] <==> forall d :: d !in rest;
    assert c in s.Clients(u).Keys;
  }

  lemma WithoutIs(u: Uuid, c: ClientId, s: Store)
    ensures ApplyAll([RemoveClient(u, c)], s) == WithoutClient(s, u, c)
    ensures ApplyAll([RemoveClient(u, c), RefreshSession], s) == WithoutClient(s, u, c)
    ensures Apply(RemoveClient(u, c), s) == WithoutClient(s, u, c)
  {
    OneWrite(RemoveClient(u, c), s);
    TwoApplied(RemoveClient(u, c), RefreshSession, s);
    RefreshApplied(Apply(RemoveClient(u, c), s));
    ClientIs(u, c, Client(0, false, false, 0, None, ENTERED, 0, None), s);
    hide Apply, ApplyAll;
  }

  lemma FinishIs(u: Uuid, c: ClientId, soft: bool, reported: bool, s: Store, obs: seq<Obs>, s': Store)
    requires Ran(Finish(u, c, soft, reported), s, obs, s')
    ensures s' == AfterFinish(s, u, c, soft, reported)
  {
    if s.Pointer(c) == Some(u) && c in s.Clients(u) && s.Hash(u).state == Some(ACTIVE) {
      FinishWrites(u, c, soft, reported, s, obs, s');
      hide Ran, Apply, Only, WithTimer, WithoutClient;
      WithoutIs(u, c, s);
      OnlyIs(s, u, c);
      TimerIs(u, CHALLENGE_END, Timeout(3), WithoutClient(s, u, c));
      TimerIs(u, CLEANUP_DUE, Timeout(1), WithoutClient(s, u, c));
    } else {
      FinishLate(u, c, soft, reported, s, obs, s');
      hide Ran;
    }
  }

  lemma FinishLate(u: Uuid, c: ClientId, soft: bool, reported: bool, s: Store, obs: seq<Obs>, s': Store)
    requires Ran(Finish(u, c, soft, reported), s, obs, s')
    requires !(s.Pointer(c) == Some(u) && c in s.Clients(u) && s.Hash(u).state == Some(ACTIVE))
    ensures s' == if s.Pointer(c) == Some(u) then WithoutClient(s, u, c) else s
  {
    RanReads(Finish(u, c, soft, reported), s, obs, s', u, c);
    hide Apply, ApplyAll, RunsAlone;
    NoWrite(s);
    WithoutIs(u, c, s);
  }

  lemma SetActiveIs(u: Uuid, c: ClientId, token: int, s: Store, obs: seq<Obs>, s': Store)
    requires Ran(SetActive(u, c, token), s, obs, s')
    ensures s' == AfterActive(s, u, c, token)
  {
    if c in s.Clients(u) && s.Clients(u)[c].token == token && !s.Clients(u)[c].active && s.Pointer(c) == Some(u) &&
       s.Hash(u) != NO_HASH {
      SetActiveWrites(u, c, token, s, obs, s');
      hide Ran, Apply;
      var client := s.Clients(u)[c].(active := true);
      ClientIs(u, c, client, s);
      TimerIs(u, CLEANUP_DUE, Timeout(0), WithClient(s, u, c, client));
    } else {
      RanReads(SetActive(u, c, token), s, obs, s', u, c);
      NoWrite(s);
      WithoutIs(u, c, s);
      hide Apply, ApplyAll, RunsAlone;
    }
  }

  lemma SetInactiveIs(u: Uuid, c: ClientId, token: int, s: Store, obs: seq<Obs>, s': Store)
    requires Ran(SetInactive(u, c, token), s, obs, s')
    ensures s' == AfterInactive(s, u, c, token)
  {
    if c in s.Clients(u) && s.Clients(u)[c].token == token && s.Clients(u)[c].active && s.Pointer(c) == Some(u) &&
       s.Hash(u) != NO_HASH {
      SetInactiveWrites(u, c, token, s, obs, s');
      hide Ran, Apply, AllInactive, NobodyActiveBut, WithTimer, WithClient;
      NobodyIs(s, u);
      var client := s.Clients(u)[c].(active := false);
      ClientIs(u, c, client, s);
      TimerIs(u, CLEANUP_DUE, Timeout(0), WithClient(s, u, c, client));
    } else {
      InactiveLate(u, c, token, s, obs, s');
      hide Ran;
    }
  }

  lemma InactiveLate(u: Uuid, c: ClientId, token: int, s: Store, obs: seq<Obs>, s': Store)
    requires Ran(SetInactive(u, c, token), s, obs, s')
    requires !(c in s.Clients(u) && s.Clients(u)[c].token == token && s.Clients(u)[c].active && s.Pointer(c) == Some(u) &&
               s.Hash(u) != NO_HASH)
    ensures s' ==
      if c !in s.Clients(u) ||
         (s.Clients(u)[c].token == token && (s.Pointer(c) != Some(u) || s.Hash(u) == NO_HASH)) then WithoutClient(s, u, c)
      else s
  {
    RanReads(SetInactive(u, c, token), s, obs, s', u, c);
    NoWrite(s);
    WithoutIs(u, c, s);
    hide Apply, ApplyAll, RunsAlone, WithoutClient;
  }

  lemma RemoveActs(u: Uuid, c: ClientId, token: int, s: Store, obs: seq<Obs>, s': Store)
    requires Ran(Remove(u, c, token), s, obs, s')
    ensures
      if c !in s.Clients(u) || s.Clients(u)[c].token != token then s' == ApplyAll([], s)
      else if s.Hash(u).state.None? || s.Hash(u).state == Some(CLEANUP) then s' == ApplyAll([RemoveClient(u, c)], s)
      else
        s' == ApplyAll([RemoveClient(u, c)] + (if |s.Clients(u)| <= 1 then [SetTimeout(u, CLEANUP_DUE, Timeout(3))] else []), s)
  {
    hide ApplyAll, RunsAlone;
    RanReads(Remove(u, c, token), s, obs, s', u, c);
  }

  lemma RemoveIs(u: Uuid, c: ClientId, token: int, s: Store, obs: seq<Obs>, s': Store)
    requires Ran(Remove(u, c, token), s, obs, s')
    ensures s' == AfterRemove(s, u, c, token)
  {
    RemoveActs(u, c, token, s, obs, s');
    hide Ran, Apply, ApplyAll, Only, WithTimer, WithoutClient;
    NoWrite(s);
    OtherState(s.Hash(u));
    if c in s.Clients(u) && s.Clients(u)[c].token == token {
      OnlyIs(s, u, c);
      MaybeOne(RemoveClient(u, c), |s.Clients(u)| <= 1, SetTimeout(u, CLEANUP_DUE, Timeout(3)), s);
      WithoutIs(u, c, s);
      TimerIs(u, CLEANUP_DUE, Timeout(3), WithoutClient(s, u, c));
    }
  }

  lemma CheckActs(u: Uuid, s: Store, obs: seq<Obs>, s': Store)
    requires Ran(CheckActive(u), s, obs, s')
    ensures s' ==
      ApplyAll(if (u in s.timeouts && TimeoutStateOf(s.Hash(u)) != NO_TIMEOUT) || !AllInactive(s.Clients(u)) then []
               else [SetTimeout(u, CLEANUP_DUE, Timeout(3))], s)
  {
    hide ApplyAll, AllInactive, RunsAlone, Seen, Current;
    RanReads(CheckActive(u), s, obs, s', u, 0);
    if Seen(obs, KeyTimeouts).Some? {
      SeenCurrent(obs, KeyTimeouts, s);
    }
  }

  lemma CheckIs(u: Uuid, s: Store, obs: seq<Obs>, s': Store)
    requires Ran(CheckActive(u), s, obs, s')
    ensures s' == AfterCheck(s, u)
  {
    CheckActs(u, s, obs, s');
    hide Ran, Apply, ApplyAll, AllInactive, NobodyActiveBut;
    NobodyIs(s, u);
    NoWrite(s);
    OneWrite(SetTimeout(u, CLEANUP_DUE, Timeout(3)), s);
    TimerIs(u, CLEANUP_DUE, Timeout(3), s);
  }

  lemma CleanupActs(u: Uuid, due: Option<Timeout>, now: int, s: Store, obs: seq<Obs>, s': Store)
    requires Ran(Cleanup(u, due, now), s, obs, s')
    ensures s' == ApplyAll(CleanupWrites(u, s.Hash(u), due, CleanupOutcome(s.Hash(u), s.Clients(u), due, now)), s)
  {
    hide ApplyAll, RunsAlone, CleanupOutcome, CleanupWrites;
    RanReads(Cleanup(u, due, now), s, obs, s', u, 0);
  }

  lemma TimeoutIs(u: Uuid, state: TimeoutState, timeout: Timeout, s: Store)
    ensures ApplyAll([SetTimeout(u, state, timeout)], s) == WithTimer(s, u, state, timeout)
  {
    OneWrite(SetTimeout(u, state, timeout), s);
  }

  lemma OutcomeIs(h: Hash, s: Store, u: Uuid, due: Option<Timeout>, now: int)
    requires h == s.Hash(u)
    ensures CleanupOutcome(h, s.Clients(u), due, now) ==
      if h.state.None? then CHALLENGE_NOT_FOUND
      else if h.state == Some(CLEANUP) then CHALLENGE_FAILED_CLEANUP
      else if Busy(h, now) then PROCESSING_STAGE
      else if Wins(s, u, due, now) then OK
      else ACTIVE_CLIENTS
  {
    OtherState(h);
    match TimeoutStateOf(h)
    case NO_TIMEOUT =>
    case STAGE_END =>
    case CHALLENGE_END =>
    case CLEANUP_DUE =>
  }

  lemma CleanupIs(u: Uuid, due: Option<Timeout>, now: int, s: Store, obs: seq<Obs>, s': Store)
    requires Ran(Cleanup(u, due, now), s, obs, s')
    ensures s' == AfterCleanup(s, u, due, now)
  {
    CleanupActs(u, due, now, s, obs, s');
    hide Ran, ApplyAll, CleanupOutcome, Busy, WithTimer;
    var h := s.Hash(u);
    OutcomeIs(h, s, u, due, now);
    NoWrite(s);
    SetFieldsIs(u, CLEANUP_PATCH, s);
    TimeoutIs(u, TimeoutStateOf(h), due.GetOr(Timeout(0)), s);
    TimeoutIs(u, CHALLENGE_END, Timeout(0), s);
    if due.Some? && due.value.maxRetryAttempts > 0 {
      TimeoutIs(u, TimeoutStateOf(h), Timeout(due.value.maxRetryAttempts - 1), s);
    }
    match TimeoutStateOf(h)
    case NO_TIMEOUT =>
    case STAGE_END =>
    case CHALLENGE_END =>
    case CLEANUP_DUE =>
  }

  // ---------------------------------------------------------------- updates

  lemma UpdateWrites(u: Uuid, c: ClientId, update: Update, retriable: int -> bool, s: Store, obs: seq<Obs>, s': Store)
    requires Ran(ApplyUpdate(u, c, update, retriable), s, obs, s')
    ensures s' == ApplyAll(ActUpdate(u, c, update, retriable, obs).writes, s) && ActUpdate(u, c, update, retriable, obs).Commit?
    ensures HashSeen(obs, u).Some? ==> HashSeen(obs, u).value == s.Hash(u)
    ensures ClientsSeen(obs, u).Some? ==> ClientsSeen(obs, u).value == s.Clients(u)
  {
    hide ActUpdate, ApplyAll, RunsAlone;
    RanReads(ApplyUpdate(u, c, update, retriable), s, obs, s', u, c);
  }

  lemma ActiveIs(u: Uuid, s: Store)
    ensures ApplyAll(ClearIfDue(u, s.Hash(u)) + [RefreshSession], s) == Active(s, u)
  {
    ActiveWrites(u, s.Hash(u), s);
    TimerIs(u, CLEANUP_DUE, Timeout(0), s);
    hide Apply, ApplyAll;
  }

  /** The writes of an accepted update, applied where the update has counted as activity. */
  lemma UpdateActs(u: Uuid, c: ClientId, update: Update, retriable: int -> bool, s: Store, obs: seq<Obs>, s': Store)
    requires Ran(ApplyUpdate(u, c, update, retriable), s, obs, s')
    ensures
      if s.Hash(u) == NO_HASH then s' == s
      else if update.entryMode || update.stage.None? || update.stage.value.stage < StageOf(s.Hash(u)) then s' == Active(s, u)
      else
        var o := StageOutcome(u, c, update.stage.value, retriable, s.Hash(u), s.Clients(u));
        s' == ApplyAll(StageWrites(u, c, o), Active(s, u))
  {
    hide Ran, Apply, ApplyAll, StageOutcome, StageWrites, ClearIfDue, Active, HashSeen, ClientsSeen;
    UpdateWrites(u, c, update, retriable, s, obs, s');
    NoWrite(s);
    ActiveIs(u, s);
    if update.stage.Some? {
      WritesInTurn(ClearIfDue(u, s.Hash(u)) + [RefreshSession],
                   StageWrites(u, c, StageOutcome(u, c, update.stage.value, retriable, s.Hash(u), s.Clients(u))), s);
    }
  }

  /** What a stage update comes to, for an accepted one. */
  lemma OutcomeOf(u: Uuid, c: ClientId, update: StageUpdate, retriable: int -> bool, s: Store)
    requires update.stage >= StageOf(s.Hash(u))
    ensures var o := StageOutcome(u, c, update, retriable, s.Hash(u), s.Clients(u)); var h := s.Hash(u);
      if c !in s.Clients(u) then o == Rejected
      else if Finishes(update) then
        o == if AllDone(s, u, c, update)
             then Applied(Finisher(s.Clients(u)[c], update), NO_CHANGE, Some((update.stage, s.Clients(u)[c].attempt)),
                          if h.timeoutState == Some(CHALLENGE_END) then LeaveTimeout else ClearIt)
             else Applied(Finisher(s.Clients(u)[c], update), NO_CHANGE, None,
                          if h.timeoutState == Some(STAGE_END) then LeaveTimeout else AwaitOthers)
      else o.Applied? && o.finishing.None? && o.timeout == LeaveTimeout
  {
    if c in s.Clients(u) && Finishes(update) {
      var h, all := s.Hash(u), s.Clients(u)[c := Finisher(s.Clients(u)[c], update)];
      FinishedOutcome(u, c, update, retriable, h, s.Clients(u));
      DoneIs(h, all);
      assert (forall d :: d in all ==> HasFinished(PositionOf(h), all[d])) <==> AllDone(s, u, c, update) by {
        assert c in all;
        assert forall d :: d in s.Clients(u) && d != c ==> d in all && all[d] == s.Clients(u)[d];
        hide HasFinished, DoneWith;
      }
      hide UpdateStage;
    }
  }

  lemma StageWritesAre(u: Uuid, c: ClientId, o: Outcome, s: Store)
    requires o.Applied?
    ensures var t := match o.timeout
                     case LeaveTimeout => s
                     case ClearIt => WithoutTimer(s, u)
                     case AwaitOthers => WithTimer(s, u, STAGE_END, Timeout(0));
      var m := WithClient(t, u, c, o.client);
      ApplyAll(StageWrites(u, c, o), s) == if o.patch == NO_CHANGE then m else WithHash(m, u, o.patch.On(m.Hash(u)))
  {
    hide Apply, ApplyAll, WithClient, WithHash, WithTimer, WithoutTimer;
    var first := match o.timeout
      case LeaveTimeout => []
      case ClearIt => [ClearTimeout(u)]
      case AwaitOthers => [SetTimeout(u, STAGE_END, Timeout(0))];
    var rest := if o.patch == NO_CHANGE then [] else [SetFields(u, o.patch)];
    assert StageWrites(u, c, o) == first + [SetClient(u, c, o.client)] + rest;
    hide StageWrites;
    WritesInTurn(first + [SetClient(u, c, o.client)], rest, s);
    WritesInTurn(first, [SetClient(u, c, o.client)], s);
    TimerIs(u, STAGE_END, Timeout(0), s);
    OneWrite(ClearTimeout(u), s);
    OneWrite(SetTimeout(u, STAGE_END, Timeout(0)), s);
    NoWrite(s);
    var t := ApplyAll(first, s);
    OneWrite(SetClient(u, c, o.client), t);
    ClientIs(u, c, o.client, t);
    NoWrite(WithClient(t, u, c, o.client));
    SetFieldsIs(u, o.patch, WithClient(t, u, c, o.client));
  }

  lemma StartedOutcomeIs(u: Uuid, c: ClientId, update: StageUpdate, retriable: int -> bool, s: Store, h: Hash)
    requires update.stage >= StageOf(s.Hash(u)) && update.status == STARTED && c in s.Clients(u)
    requires h.stage == s.Hash(u).stage && h.attempt == s.Hash(u).attempt
    ensures var o := StageOutcome(u, c, update, retriable, s.Hash(u), s.Clients(u)); var was := s.Clients(u)[c];
      var attempt := AttemptAfter(s.Hash(u), was, update.stage, retriable);
      o.Applied? && o.finishing.None? && o.timeout == LeaveTimeout &&
      o.client == Client(was.token, was.participant, true, update.stage, attempt, STARTED, was.lastStage, was.lastAttempt) &&
      o.patch.On(h) ==
        if update.stage != StageOf(s.Hash(u)) then h.(stage := Some(update.stage), attempt := attempt)
        else h.(attempt := attempt)
  {
  }

  lemma SameHash(s: Store, u: Uuid)
    requires s.Hash(u) != NO_HASH
    ensures WithHash(s, u, s.Hash(u)) == s
    ensures var h := s.Hash(u);
      Active(s, u).Hash(u) == if h.timeoutState == Some(CLEANUP_DUE) then h.(timeoutState := Some(NO_TIMEOUT)) else h
    ensures Active(s, u).Clients(u) == s.Clients(u)
  {
  }

  lemma StartedUpdateIs(u: Uuid, c: ClientId, update: StageUpdate, retriable: int -> bool, s: Store)
    requires s.Hash(u) != NO_HASH && update.stage >= StageOf(s.Hash(u)) && update.status == STARTED && c in s.Clients(u)
    ensures ApplyAll(StageWrites(u, c, StageOutcome(u, c, update, retriable, s.Hash(u), s.Clients(u))), Active(s, u)) ==
      AfterStarted(s, u, c, update.stage, retriable)
  {
    hide ApplyAll, StageWrites, StageOutcome;
    var t := Active(s, u);
    SameHash(s, u);
    StartedOutcomeIs(u, c, update, retriable, s, t.Hash(u));
    var o := StageOutcome(u, c, update, retriable, s.Hash(u), s.Clients(u));
    StageWritesAre(u, c, o, t);
    hide Active, AttemptAfter, StageOf;
    var m := WithClient(t, u, c, o.client);
    assert m.Hash(u) == t.Hash(u);
    SameHash(m, u);
  }

  lemma FinishedUpdateIs(u: Uuid, c: ClientId, update: StageUpdate, retriable: int -> bool, s: Store)
    requires update.stage >= StageOf(s.Hash(u)) && Finishes(update) && c in s.Clients(u)
    ensures ApplyAll(StageWrites(u, c, StageOutcome(u, c, update, retriable, s.Hash(u), s.Clients(u))), Active(s, u)) ==
      AfterFinished(s, u, c, update)
  {
    hide ApplyAll, StageWrites, StageOutcome, AllDone, Active;
    OutcomeOf(u, c, update, retriable, s);
    StageWritesAre(u, c, StageOutcome(u, c, update, retriable, s.Hash(u), s.Clients(u)), Active(s, u));
  }

  lemma EnteredUpdateIs(u: Uuid, c: ClientId, update: StageUpdate, retriable: int -> bool, s: Store)
    requires update.stage >= StageOf(s.Hash(u)) && update.status == ENTERED && c in s.Clients(u)
    ensures var was := s.Clients(u)[c];
      ApplyAll(StageWrites(u, c, StageOutcome(u, c, update, retriable, s.Hash(u), s.Clients(u))), Active(s, u)) ==
      WithClient(Active(s, u), u, c,
                 Client(was.token, was.participant, true, update.stage, was.attempt, ENTERED, was.lastStage, was.lastAttempt))
  {
    var o := StageOutcome(u, c, update, retriable, s.Hash(u), s.Clients(u));
    hide ApplyAll, StageWrites, Active, WithClient;
    StageWritesAre(u, c, o, Active(s, u));
  }

  lemma UpdateIs(u: Uuid, c: ClientId, update: Update, retriable: int -> bool, s: Store, obs: seq<Obs>, s': Store)
    requires Ran(ApplyUpdate(u, c, update, retriable), s, obs, s')
    ensures s' == AfterUpdate(s, u, c, update, retriable)
  {
    UpdateActs(u, c, update, retriable, s, obs, s');
    hide Ran, ApplyAll, StageOutcome, Active, WithClient, AfterStarted, AfterFinished;
    if update.stage.Some? && update.stage.value.stage >= StageOf(s.Hash(u)) && s.Hash(u) != NO_HASH && !update.entryMode {
      var new_ := update.stage.value;
      if c !in s.Clients(u) {
        OutcomeOf(u, c, new_, retriable, s);
        NoWrite(Active(s, u));
      } else if Finishes(new_) {
        FinishedUpdateIs(u, c, new_, retriable, s);
      } else if new_.status == STARTED {
        StartedUpdateIs(u, c, new_, retriable, s);
      } else {
        OtherStatus(new_);
        EnteredUpdateIs(u, c, new_, retriable, s);
      }
    }
  }

  lemma OtherStatus(update: StageUpdate)
    ensures Finishes(update) || update.status == STARTED || update.status == ENTERED
  {
    match update.status
    case ENTERED =>
    case STARTED =>
    case COMPLETED =>
    case WIPED =>
  }

  // ---------------------------------------------------------------- every job, and every run

  lemma JoinerIs(j: Job, s: Store, obs: seq<Obs>, s': Store)
    requires (j.Start? || j.Activate? || j.AbortCreate? || j.Join? || j.Add?) && Ran(j, s, obs, s')
    ensures s' == After(j, s)
  {
    hide Ran, AfterStart, AfterActivate, AfterJoin, AfterAdd, Deleted;
    match j
    case Start(joiner, party, stage, created) => StartIs(joiner, party, stage, created, s, obs, s');
    case Activate(u, joiner, party, stage) => ActivateIs(u, joiner, party, stage, s, obs, s');
    case AbortCreate(_, _) => DeleteIs(j, s, obs, s');
    case Join(u, joiner, retries) => JoinIs(u, joiner, retries, s, obs, s');
    case Add(u, joiner) => AddIs(u, joiner, s, obs, s');
  }

  predicate OfClient(j: Job) {
    j.ApplyUpdate? || j.Finish? || j.SetActive? || j.SetInactive? || j.Remove?
  }

  lemma ClientJobIs(j: Job, s: Store, obs: seq<Obs>, s': Store)
    requires OfClient(j) && Ran(j, s, obs, s')
    ensures s' == After(j, s)
  {
    hide Ran, AfterUpdate, AfterFinish, AfterActive, AfterInactive, AfterRemove;
    match j
    case ApplyUpdate(u, c, update, retriable) => UpdateIs(u, c, update, retriable, s, obs, s');
    case Finish(u, c, soft, reported) => FinishIs(u, c, soft, reported, s, obs, s');
    case SetActive(u, c, token) => SetActiveIs(u, c, token, s, obs, s');
    case SetInactive(u, c, token) => SetInactiveIs(u, c, token, s, obs, s');
    case Remove(u, c, token) => RemoveIs(u, c, token, s, obs, s');
  }

  predicate Completes(j: Job) {
    j.MarkProcessing? || j.ClearStageEnd? || j.ClearStale? || j.Claim? || j.Merge?
  }

  lemma CompleterIs(j: Job, s: Store, obs: seq<Obs>, s': Store)
    requires Completes(j) && Ran(j, s, obs, s')
    ensures s' == After(j, s)
  {
    hide Ran, AfterClaim, AfterMerge, WithoutTimer, WithHash;
    match j
    case MarkProcessing(u, stage, attempt, now) => MarkIs(u, stage, attempt, now, s, obs, s');
    case ClearStageEnd(_, _, _, _) => ClearIs(j, s, obs, s');
    case ClearStale(_) => ClearIs(j, s, obs, s');
    case Claim(u, stage, attempt, now, andThen) => ClaimIs(u, stage, attempt, now, andThen, s, obs, s');
    case Merge(u, stage, attempt, completed, andThen) => MergeIs(u, stage, attempt, completed, andThen, s, obs, s');
  }

  predicate CleansUp(j: Job) {
    j.CheckActive? || j.Cleanup? || j.OwnerDelete? || j.Delete?
  }

  lemma CleanerIs(j: Job, s: Store, obs: seq<Obs>, s': Store)
    requires CleansUp(j) && Ran(j, s, obs, s')
    ensures s' == After(j, s)
  {
    hide Ran, AfterCleanup, AfterCheck, Deleted;
    match j
    case CheckActive(u) => CheckIs(u, s, obs, s');
    case Cleanup(u, due, now) => CleanupIs(u, due, now, s, obs, s');
    case OwnerDelete(_, _) => DeleteIs(j, s, obs, s');
    case Delete(_, _) => DeleteIs(j, s, obs, s');
  }

  lemma ReaderKeeps(j: Job, s: Store)
    requires OnlyReads(j)
    ensures After(j, s) == s
  {
  }

  /** Whatever a job reads and writes on its way, what it makes of the store is the reference's change. */
  lemma JobIs(j: Job, s: Store, obs: seq<Obs>, s': Store)
    requires Ran(j, s, obs, s')
    ensures s' == After(j, s)
  {
    hide Ran, After;
    if OfClient(j) {
      ClientJobIs(j, s, obs, s');
    } else if Completes(j) {
      CompleterIs(j, s, obs, s');
    } else if CleansUp(j) {
      CleanerIs(j, s, obs, s');
    } else if OnlyReads(j) {
      ReaderKeeps(j, s);
      ReaderIs(j, s, obs, s');
    } else {
      JoinerIs(j, s, obs, s');
    }
  }

  predicate OnlyReads(j: Job) {
    j.CheckAdd? || j.CheckUpdate? || j.OnEvent? || j.Load? || j.Tick? || j.TickState? || j.StageEndTimer? || j.OwnerLoad?
  }

  lemma ReaderIs(j: Job, s: Store, obs: seq<Obs>, s': Store)
    requires OnlyReads(j) && Ran(j, s, obs, s')
    ensures s' == s
  {
    assert Act(j, obs).writes == [];
    hide Act, RunsAlone;
    NoWrite(s);
  }

  // ---------------------------------------------------------------- what follows a job, and when it fails

  ghost predicate Afterwards(u: Uuid, andThen: Then, next: Option<Job>) {
    (andThen == ThenStop ==> next.None?) && (andThen == ThenCheck ==> next == Some(CheckActive(u))) &&
    (andThen.ThenDelete? ==> next == Some(OwnerDelete(u, andThen.party)))
  }

  /** The stage is completed next, once a stage end timer has been cleared. */
  ghost predicate CompletedNext(u: Uuid, h: Hash, stage: int, attempt: Option<int>, andThen: Then, next: Option<Job>) {
    next.Some? &&
    if h.timeoutState == Some(STAGE_END) then next.value == ClearStageEnd(u, stage, attempt, andThen)
    else next.value.Claim? && next.value == Claim(u, stage, attempt, next.value.now, andThen)
  }

  ghost predicate UpdateFollows(u: Uuid, c: ClientId, update: Update, s: Store, next: Option<Job>) {
    if s.Hash(u) == NO_HASH then next.None?
    else if update.entryMode then next.Some? && next.value.Cleanup? && next.value == Cleanup(u, None, next.value.now)
    else if update.stage.None? || update.stage.value.stage < StageOf(s.Hash(u)) || c !in s.Clients(u) then next.None?
    else if Finishes(update.stage.value) && AllDone(s, u, c, update.stage.value) then
      next.Some? && next.value.MarkProcessing? &&
      next.value == MarkProcessing(u, update.stage.value.stage, s.Clients(u)[c].attempt, next.value.now)
    else next.None?
  }

  ghost predicate TimerFollows(u: Uuid, timeout: Timeout, h: Hash, next: Option<Job>) {
    if Ending(h) then next.Some? && next.value.Cleanup? && next.value == Cleanup(u, Some(timeout), next.value.now)
    else next == Some(if h.timeoutState == Some(STAGE_END) then StageEndTimer(u) else ClearStale(u))
  }

  ghost predicate CleanupFollows(s: Store, u: Uuid, due: Option<Timeout>, now: int, next: Option<Job>) {
    if Wins(s, u, due, now) then next == Some(OwnerLoad(u))
    else if s.Hash(u).state.None? || s.Hash(u).state == Some(CLEANUP) then
      next.Some? && next.value.Delete? && next.value.u == u
    else next.None?
  }

  /** What may follow a job that ran on the store. */
  ghost predicate Follows(j: Job, s: Store, next: Option<Job>) {
    match j
    case Start(joiner, party, stage, created) =>
      if !HasOpen(s, party, stage) then
        next == Some(Activate(created, joiner, party, stage)) || next == Some(AbortCreate(created, party))
      else
        var last := s.Challenges(party)[|s.Challenges(party)| - 1];
        if s.Hash(last).state == Some(ACTIVE) then next.None? else next == Some(Join(last, joiner, 0))
    case Join(u, joiner, retries) =>
      if s.Hash(u).state == Some(INITIALIZING) && retries < 9 then next == Some(Join(u, joiner, retries + 1)) else next.None?
    case CheckAdd(u, joiner) =>
      if s.Pointer(joiner.c).None? || s.Pointer(joiner.c) == Some(u) then next == Some(Add(u, joiner)) else next.None?
    case CheckUpdate(u, c, update, retriable) =>
      if s.Pointer(c) == Some(u) then next == Some(ApplyUpdate(u, c, update, retriable)) else next.None?
    case ApplyUpdate(u, c, update, _) => UpdateFollows(u, c, update, s, next)
    case MarkProcessing(u, stage, attempt, _) => next == Some(Load(u, stage, attempt, ThenStop))
    case OnEvent(c, token, status) =>
      if s.Pointer(c).None? then next.None?
      else
        var u := s.Pointer(c).value;
        next == Some(if status == ClientActive then SetActive(u, c, token)
                     else if status == ClientIdle then SetInactive(u, c, token) else Remove(u, c, token))
    case Load(u, stage, attempt, andThen) =>
      if stage == 0 || s.Hash(u) == NO_HASH then Afterwards(u, andThen, next)
      else CompletedNext(u, s.Hash(u), stage, attempt, andThen, next)
    case ClearStageEnd(u, stage, attempt, andThen) => CompletedNext(u, NO_HASH, stage, attempt, andThen, next)
    case Claim(u, stage, attempt, _, andThen) =>
      if (stage, attempt) in s.Processed(u) then Afterwards(u, andThen, next)
      else
        (next.Some? && next.value.Merge? && next.value == Merge(u, stage, attempt, next.value.completed, andThen)) ||
        (if andThen.ThenDelete? then next.None? else Afterwards(u, andThen, next))
    case Merge(u, _, _, _, andThen) => Afterwards(u, andThen, next)
    case Tick => next.None? || exists u :: u in s.timeouts && next == Some(TickState(u, s.timeouts[u]))
    case TickState(u, timeout) => TimerFollows(u, timeout, s.Hash(u), next)
    case ClearStale(_) => next == Some(Tick)
    case StageEndTimer(u) =>
      next.Some? && next.value.Load? && next.value == Load(u, next.value.stage, next.value.attempt, ThenCheck) &&
      IsLastCompleted(s.Clients(u), next.value.stage, next.value.attempt)
    case Cleanup(u, due, now) => CleanupFollows(s, u, due, now, next)
    case OwnerLoad(u) =>
      if s.Hash(u) == NO_HASH then next.Some? && next.value.OwnerDelete? && next.value.u == u
      else CompletedNext(u, s.Hash(u), StageOf(s.Hash(u)), s.Hash(u).attempt, ThenDelete(s.Hash(u).party), next)
    case _ => next.None?
  }

  /** A full read of the challenge fails: it has fields, but no party among them. */
  ghost predicate Broken(h: Hash) {
    h != NO_HASH && h.party.None?
  }

  /** When the transaction of a job throws. */
  ghost predicate Fails(j: Job, s: Store) {
    match j
    case Join(u, _, _) => s.Hash(u).state.None? || s.Hash(u).state == Some(CLEANUP)
    case Add(u, _) => Broken(s.Hash(u))
    case ApplyUpdate(u, _, _, _) => Broken(s.Hash(u))
    case Finish(u, c, _, _) => s.Pointer(c) == Some(u) && Broken(s.Hash(u))
    case SetActive(u, _, _) => Broken(s.Hash(u))
    case SetInactive(u, _, _) => Broken(s.Hash(u))
    case Load(u, stage, _, _) => stage != 0 && Broken(s.Hash(u))
    case OwnerLoad(u) => Broken(s.Hash(u))
    case _ => false
  }

  lemma ReadsAreCurrentOf(j: Job, s: Store, obs: seq<Obs>, u: Uuid, c: ClientId)
    requires ReadsFrom(BodyOf(j), obs, s)
    ensures Current(obs, s)
    ensures HashSeen(obs, u).Some? ==> HashSeen(obs, u).value == s.Hash(u)
    ensures ClientsSeen(obs, u).Some? ==> ClientsSeen(obs, u).value == s.Clients(u)
    ensures PointerSeen(obs, c).Some? ==> PointerSeen(obs, c).value == s.Pointer(c)
  {
    hide Act;
    assert Current(obs, s);
    ChallengeSeen(obs, u, s);
    PointerSeenNow(obs, c, s);
  }

  lemma FailsIs(j: Job, s: Store, obs: seq<Obs>)
    requires ReadsFrom(BodyOf(j), obs, s) && !Act(j, obs).Read?
    ensures Act(j, obs).Throw? <==> Fails(j, s)
  {
    if Fails(j, s) || Act(j, obs).Throw? {
      hide Decide, CleanupOutcome, UpdateStage, StageWrites;
      var c := if j.Finish? || j.SetActive? || j.SetInactive? then j.c else 0;
      if !(j.Start? || j.CheckAdd? || j.OnEvent? || j.Tick?) {
        ReadsAreCurrentOf(j, s, obs, j.u, c);
      }
    }
  }

  lemma JoiningNext(j: Job, s: Store, obs: seq<Obs>, next: Option<Job>)
    requires j.Start? || j.Join? || j.CheckAdd? || j.CheckUpdate? || j.OnEvent?
    requires ReadsFrom(BodyOf(j), obs, s) && Act(j, obs).Commit? && Next(j, obs, next)
    ensures Follows(j, s, next)
  {
    if j.Start? {
      ReadsAreCurrentOf(j, s, obs, 0, 0);
      StartReads(j.party, j.stage, s, obs);
      hide Decide, Open, Usable;
    } else {
      ReadsAreCurrentOf(j, s, obs, if j.OnEvent? then 0 else j.u, if j.CheckAdd? then j.joiner.c else if j.Join? then 0 else j.c);
    }
  }

  lemma UpdatingNext(j: Job, s: Store, obs: seq<Obs>, next: Option<Job>)
    requires j.ApplyUpdate? && ReadsFrom(BodyOf(j), obs, s) && Act(j, obs).Commit? && Next(j, obs, next)
    ensures UpdateFollows(j.u, j.c, j.update, s, next)
  {
    ReadsAreCurrentOf(j, s, obs, j.u, j.c);
    hide StageOutcome, AllDone, StageWrites;
    if j.update.stage.Some? && j.update.stage.value.stage >= StageOf(s.Hash(j.u)) {
      OutcomeOf(j.u, j.c, j.update.stage.value, j.retriable, s);
    }
  }

  lemma LoadedNext(j: Job, s: Store, obs: seq<Obs>, next: Option<Job>)
    requires j.MarkProcessing? || j.Load? || j.ClearStageEnd? || j.Merge? || j.OwnerLoad?
    requires ReadsFrom(BodyOf(j), obs, s) && Act(j, obs).Commit? && Next(j, obs, next)
    ensures Follows(j, s, next)
  {
    ReadsAreCurrentOf(j, s, obs, j.u, 0);
    hide ReadsFrom;
  }

  lemma ClaimNext(j: Job, s: Store, obs: seq<Obs>, next: Option<Job>)
    requires j.Claim? && ReadsFrom(BodyOf(j), obs, s) && Act(j, obs).Commit? && Next(j, obs, next)
    ensures Follows(j, s, next)
  {
    ReadsAreCurrentOf(j, s, obs, j.u, 0);
    if Seen(obs, KeyProcessed(j.u)).Some? {
      SeenCurrent(obs, KeyProcessed(j.u), s);
    }
    hide ReadsFrom;
  }

  lemma TimerNext(j: Job, s: Store, obs: seq<Obs>, next: Option<Job>)
    requires j.Tick? || j.TickState? || j.ClearStale? || j.StageEndTimer?
    requires ReadsFrom(BodyOf(j), obs, s) && Act(j, obs).Commit? && Next(j, obs, next)
    ensures Follows(j, s, next)
  {
    ReadsAreCurrentOf(j, s, obs, if j.Tick? then 0 else j.u, 0);
    if j.Tick? && Seen(obs, KeyTimeouts).Some? {
      SeenCurrent(obs, KeyTimeouts, s);
    }
  }

  lemma CleanupNext(j: Job, s: Store, obs: seq<Obs>, next: Option<Job>)
    requires j.Cleanup? && ReadsFrom(BodyOf(j), obs, s) && Act(j, obs).Commit? && Next(j, obs, next)
    ensures CleanupFollows(s, j.u, j.due, j.now, next)
  {
    ReadsAreCurrentOf(j, s, obs, j.u, 0);
    hide CleanupOutcome;
    OutcomeIs(s.Hash(j.u), s, j.u, j.due, j.now);
  }

  /** What follows a job is what the reference says for the store it ran on. */
  lemma NextIs(j: Job, s: Store, obs: seq<Obs>, next: Option<Job>)
    requires ReadsFrom(BodyOf(j), obs, s) && Act(j, obs).Commit? && Next(j, obs, next)
    ensures Follows(j, s, next)
  {
    if j.Start? || j.Join? || j.CheckAdd? || j.CheckUpdate? || j.OnEvent? {
      JoiningNext(j, s, obs, next);
    } else if j.ApplyUpdate? {
      UpdatingNext(j, s, obs, next);
    } else if j.Claim? {
      ClaimNext(j, s, obs, next);
    } else if j.MarkProcessing? || j.Load? || j.ClearStageEnd? || j.Merge? || j.OwnerLoad? {
      LoadedNext(j, s, obs, next);
    } else if j.Tick? || j.TickState? || j.ClearStale? || j.StageEndTimer? {
      TimerNext(j, s, obs, next);
    } else if j.Cleanup? {
      CleanupNext(j, s, obs, next);
    } else {
      assert next.None?;
    }
    hide Act, Next, HasOpen, UpdateFollows, TimerFollows, CleanupFollows, CompletedNext, Afterwards;
  }

  /** Every step of every run changes the store exactly as the reference says for the job it commits, or not at all. */
  lemma StepsAre(states: seq<System>, events: seq<Happening>, n: nat)
    requires Behavior(states, events) && n < |events|
    ensures var s, e, s' := states[n], events[n], states[n + 1];
      if e.Do? && e.step.Exec? then
        e.step.tid in s.jobs && s'.db.store == After(s.jobs[e.step.tid], s.db.store) &&
        !Fails(s.jobs[e.step.tid], s.db.store) && Follows(s.jobs[e.step.tid], s.db.store, e.next)
      else s'.db.store == s.db.store
  {
    SystemOkHolds(states, events, n);
    var s, e, s' := states[n], events[n], states[n + 1];
    if e.Do? && e.step.Exec? {
      CommittedRan(s, e.step.tid, e.next, s');
      hide SystemOk, SystemStep, Act, Next, After, StoreOk, Follows, Fails;
      var j, obs := s.jobs[e.step.tid], s.db.runs[e.step.tid].obs;
      JobIs(j, s.db.store, obs, s'.db.store);
      FailsIs(j, s.db.store, obs);
      NextIs(j, s.db.store, obs, e.next);
    } else {
      hide SystemOk;
    }
  }

  /** The hash of the party's last challenge. */
  ghost function OfLast(s: Store, party: Party): Hash {
    var all := s.Challenges(party); if all == [] then NO_HASH else s.Hash(all[|all| - 1])
  }

  /**
   * What becomes of a start. The client joins the party's last challenge if and only if that one is active, not
   * over, and not past the requested stage; it waits for one that is just being created; otherwise its own
   * challenge comes last in the party, in place of one that cannot be used any more.
   */
  ghost predicate StartMeans(
      joiner: Joiner, party: Party, stage: int, created: Uuid, s: Store, s': Store, next: Option<Job>)
  {
    var all, h := s.Challenges(party), OfLast(s, party);
    var goesOn := h.completed == Some(false) && h.stage.Some? && h.timeoutState != Some(CHALLENGE_END) &&
      (stage == UNKNOWN_STAGE || stage >= h.stage.value);
    var usable := (h.state == Some(ACTIVE) || h.state == Some(INITIALIZING)) && h.completed.Some? && h.stage.Some?;
    if h.state == Some(ACTIVE) && goesOn then
      all != [] && var last := all[|all| - 1];
      s'.parties == s.parties && next.None? && joiner.c in s'.Clients(last) && s'.Pointer(joiner.c) == Some(last) &&
      var client := s'.Clients(last)[joiner.c];
      client.active && client.token == joiner.token && client.stage == h.stage.value && client.attempt == h.attempt
    else if h.state == Some(INITIALIZING) && goesOn then
      all != [] && s'.parties == s.parties && s'.clients == s.clients && next == Some(Join(all[|all| - 1], joiner, 0))
    else
      s'.clients == s.clients && s'.pointers == s.pointers && s'.Hash(created).state == Some(INITIALIZING) &&
      s'.Hash(created).stage == Some(stage) &&
      s'.Challenges(party) == (if all != [] && !usable then all[..|all| - 1] else all) + [created] &&
      (next == Some(Activate(created, joiner, party, stage)) || next == Some(AbortCreate(created, party)))
  }

  lemma JoinedMeans(u: Uuid, joiner: Joiner, stage: int, attempt: Option<int>, s: Store)
    ensures var s' := Active(Entering(s, u, joiner, stage, attempt), u);
      s'.parties == s.parties && joiner.c in s'.Clients(u) && s'.Pointer(joiner.c) == Some(u) &&
      var client := s'.Clients(u)[joiner.c];
      client.active && client.token == joiner.token && client.stage == stage && client.attempt == attempt
  {
    var t := Entering(s, u, joiner, stage, attempt);
    assert Active(t, u).clients == t.clients && Active(t, u).pointers == t.pointers && Active(t, u).parties == t.parties;
  }

  lemma StartOpen(
      joiner: Joiner, party: Party, stage: int, created: Uuid, s: Store, s': Store, next: Option<Job>)
    requires HasOpen(s, party, stage)
    requires s' == AfterStart(s, joiner, party, stage, created) && Follows(Start(joiner, party, stage, created), s, next)
    ensures StartMeans(joiner, party, stage, created, s, s', next)
  {
    var all := s.Challenges(party);
    var last := all[|all| - 1];
    JoinedMeans(last, joiner, OfLast(s, party).stage.value, OfLast(s, party).attempt, s);
    assert Active(s, last).clients == s.clients && Active(s, last).parties == s.parties;
    hide Active, Entering, WithHash;
  }

  lemma StartCreates(
      joiner: Joiner, party: Party, stage: int, created: Uuid, s: Store, s': Store, next: Option<Job>)
    requires !HasOpen(s, party, stage)
    requires s' == AfterStart(s, joiner, party, stage, created) && Follows(Start(joiner, party, stage, created), s, next)
    ensures StartMeans(joiner, party, stage, created, s, s', next)
  {
    hide Active, Entering;
  }

  lemma StartMeansIs(
      joiner: Joiner, party: Party, stage: int, created: Uuid, s: Store, s': Store, next: Option<Job>)
    requires s' == AfterStart(s, joiner, party, stage, created) && Follows(Start(joiner, party, stage, created), s, next)
    ensures StartMeans(joiner, party, stage, created, s, s', next)
  {
    hide AfterStart, Follows, StartMeans, HasOpen;
    if HasOpen(s, party, stage) {
      StartOpen(joiner, party, stage, created, s, s', next);
    } else {
      StartCreates(joiner, party, stage, created, s, s', next);
    }
  }

  /** In every run, a start that commits comes to just that. */
  lemma StartsAre(states: seq<System>, events: seq<Happening>, n: nat, joiner: Joiner, party: Party, stage: int, created: Uuid)
    requires Behavior(states, events) && n < |events| && events[n].Do? && events[n].step.Exec?
    requires events[n].step.tid in states[n].jobs && states[n].jobs[events[n].step.tid] == Start(joiner, party, stage, created)
    ensures StartMeans(joiner, party, stage, created, states[n].db.store, states[n + 1].db.store, events[n].next)
  {
    StepsAre(states, events, n);
    hide Behavior, SystemStep, Fails, Follows, StartMeans, AfterStart;
    StartMeansIs(joiner, party, stage, created, states[n].db.store, states[n + 1].db.store, events[n].next);
  }
}
