/**
 * The life of a challenge as its stored hash shows it, what a good store looks like at each point of
 * it, and which writes keep the store good and move a challenge only along its life.
 */
module LifecycleStore {
  import opened Options
  import opened RedisStore
  import opened ChallengeStage
  import opened ManagerJobs

  /** How far a challenge is; `born` holds every challenge whose hash was ever given a state. */
  const UNBORN := 0
  const INITIAL := 1
  const LIVE := 2
  const RETIRED := 3
  const GONE := 4

  function Phase(s: Store, born: set<Uuid>, u: Uuid): int {
    if u !in born then UNBORN
    else
      match s.Hash(u).state
      case Some(INITIALIZING) => INITIAL
      case Some(ACTIVE) => LIVE
      case Some(CLEANUP) => RETIRED
      case None => GONE
  }

  predicate Edge(p: int, q: int) {
    p == q || (p == UNBORN && q == INITIAL) || (p == INITIAL && (q == LIVE || q == GONE)) || (p == LIVE && q == RETIRED) ||
    (p == RETIRED && q == GONE)
  }

  // ---------------------------------------------------------------- a good store

  ghost predicate ChallengeOk(s: Store, born: set<Uuid>, u: Uuid) {
    var h, p := s.Hash(u), Phase(s, born, u);
    (p == UNBORN ==> h == NO_HASH && s.Processed(u) == {}) &&
    (p <= INITIAL ==> s.Clients(u) == map[] && TimeoutStateOf(h) == NO_TIMEOUT && u !in s.timeouts && h.attempt.None?) &&
    (INITIAL <= p <= RETIRED ==> h.stage.Some?) &&
    (LIVE <= p <= RETIRED ==> h.party.Some?) &&
    (p == GONE ==> h.stage.None? && h.attempt.None? && h.party.None?) &&
    (TimeoutStateOf(h) != NO_TIMEOUT ==> u in s.timeouts)
  }

  /** A client's pointer names a challenge that lists the client, or one whose state is gone. */
  ghost predicate PointerOk(s: Store, born: set<Uuid>, c: ClientId) {
    s.Pointer(c).Some? ==>
      var u := s.Pointer(c).value;
      Phase(s, born, u) >= LIVE && (Phase(s, born, u) == GONE || c in s.Clients(u))
  }

  ghost predicate StoreOk(s: Store, born: set<Uuid>) {
    (forall u {:trigger ChallengeOk(s, born, u)} :: ChallengeOk(s, born, u)) &&
    (forall c {:trigger PointerOk(s, born, c)} :: PointerOk(s, born, c))
  }

  // ---------------------------------------------------------------- how writes may move a challenge

  /** One commit moves a challenge along one edge; one that is not `mine` only from LIVE on, and never backwards. */
  ghost predicate Moved(s: Store, born: set<Uuid>, s': Store, born': set<Uuid>, mine: Option<Uuid>, u: Uuid) {
    var p, q := Phase(s, born, u), Phase(s', born', u);
    Edge(p, q) &&
    (mine != Some(u) && p <= INITIAL ==> q == p && s'.Hash(u).stage == s.Hash(u).stage) &&
    (INITIAL <= p && q <= RETIRED ==> PositionLe(PositionOf(s.Hash(u)), PositionOf(s'.Hash(u))))
  }

  ghost predicate AllMoved(s: Store, born: set<Uuid>, s': Store, born': set<Uuid>, mine: Option<Uuid>) {
    forall u {:trigger Moved(s, born, s', born', mine, u)} :: Moved(s, born, s', born', mine, u)
  }

  function BornAfter(w: Write, born: set<Uuid>): set<Uuid> {
    if w.SetFields? && w.patch.state == Put(INITIALIZING) then born + {w.u} else born
  }

  function BornAfterAll(ws: seq<Write>, born: set<Uuid>): set<Uuid> {
    if ws == [] then born else BornAfter(ws[|ws| - 1], BornAfterAll(ws[..|ws| - 1], born))
  }

  /** A write that leaves every challenge's state, stage, attempt and party alone. */
  ghost predicate Quiet(w: Write, s: Store, born: set<Uuid>) {
    match w
    case SetFields(u, p) =>
      Phase(s, born, u) >= LIVE && p == NO_CHANGE.(completed := p.completed, processing := p.processing)
    case SetClient(u, _, _) => Phase(s, born, u) >= LIVE
    case SetTimeout(u, _, _) => Phase(s, born, u) >= LIVE
    case SetProcessed(u, _, _) => Phase(s, born, u) >= LIVE
    case ClearTimeout(u) => Phase(s, born, u) >= INITIAL
    case DeleteData(_, _) => false
    case _ => true
  }

  ghost predicate Advances(u: Uuid, p: Patch, s: Store, born: set<Uuid>) {
    LIVE <= Phase(s, born, u) <= RETIRED && p == NO_CHANGE.(stage := p.stage, attempt := p.attempt) && !p.stage.Clear? &&
    PositionLe(PositionOf(s.Hash(u)), PositionOf(p.On(s.Hash(u))))
  }

  ghost predicate GivesBirth(u: Uuid, p: Patch, s: Store, born: set<Uuid>) {
    Phase(s, born, u) == UNBORN && p.stage.Put? && p == BirthPatch(p.stage.value)
  }

  ghost predicate Activates(u: Uuid, p: Patch, s: Store, born: set<Uuid>) {
    Phase(s, born, u) == INITIAL && p.stage.Put? && p.party.Put? && p == ActivePatch(p.stage.value, p.party.value) &&
    s.Hash(u).stage == Some(p.stage.value)
  }

  ghost predicate Retires(u: Uuid, p: Patch, s: Store, born: set<Uuid>) {
    Phase(s, born, u) == LIVE && p == CLEANUP_PATCH
  }

  /** A write that moves one challenge on: only its creator moves one that is not yet LIVE. */
  ghost predicate Turn(w: Write, s: Store, born: set<Uuid>, mine: Option<Uuid>) {
    match w
    case SetFields(u, p) =>
      Advances(u, p, s, born) || Retires(u, p, s, born) ||
      (mine == Some(u) && (GivesBirth(u, p, s, born) || Activates(u, p, s, born)))
    case DeleteData(u, _) => Phase(s, born, u) >= RETIRED || (mine == Some(u) && Phase(s, born, u) == INITIAL)
    case _ => false
  }

  // ---------------------------------------------------------------- single writes

  function Target(w: Write): Option<Uuid> {
    match w
    case SetFields(u, _) => Some(u)
    case SetClient(u, _, _) => Some(u)
    case RemoveClient(u, _) => Some(u)
    case SetTimeout(u, _, _) => Some(u)
    case ClearTimeout(u) => Some(u)
    case SetProcessed(u, _, _) => Some(u)
    case DeleteData(u, _) => Some(u)
    case _ => None
  }

  /** A write touches nothing of the challenges it is not about. */
  lemma WriteFrame(w: Write, s: Store, u: Uuid)
    requires Target(w) != Some(u)
    ensures var s' := Apply(w, s);
      s'.Hash(u) == s.Hash(u) && s'.Clients(u) == s.Clients(u) && s'.Processed(u) == s.Processed(u) &&
      (u in s'.timeouts <==> u in s.timeouts)
  {
  }

  lemma FrameKeepsChallenge(w: Write, s: Store, born: set<Uuid>, u: Uuid)
    requires ChallengeOk(s, born, u) && Target(w) != Some(u)
    ensures ChallengeOk(Apply(w, s), BornAfter(w, born), u)
    ensures Phase(Apply(w, s), BornAfter(w, born), u) == Phase(s, born, u)
  {
    WriteFrame(w, s, u);
    hide Apply;
  }

  /** The same life: state, stage, attempt and party of every challenge are as before. */
  ghost predicate SameLife(s: Store, s': Store, u: Uuid) {
    var h, h' := s.Hash(u), s'.Hash(u);
    h'.state == h.state && h'.stage == h.stage && h'.attempt == h.attempt && h'.party == h.party
  }

  ghost predicate AllSameLife(s: Store, s': Store) {
    forall u {:trigger SameLife(s, s', u)} :: SameLife(s, s', u)
  }

  lemma QuietSameLife(w: Write, s: Store, born: set<Uuid>)
    requires Quiet(w, s, born)
    ensures AllSameLife(s, Apply(w, s)) && BornAfter(w, born) == born
  {
    forall u
      ensures SameLife(s, Apply(w, s), u)
    {
      if Target(w) != Some(u) {
        WriteFrame(w, s, u);
      }
    }
  }

  lemma QuietKeepsTarget(w: Write, s: Store, born: set<Uuid>, u: Uuid)
    requires ChallengeOk(s, born, u) && Quiet(w, s, born) && Target(w) == Some(u)
    ensures ChallengeOk(Apply(w, s), born, u)
  {
  }

  lemma QuietKeepsPointer(w: Write, s: Store, born: set<Uuid>, c: ClientId)
    requires PointerOk(s, born, c) && Quiet(w, s, born)
    ensures PointerOk(Apply(w, s), born, c)
  {
    QuietSameLife(w, s, born);
    if s.Pointer(c).Some? {
      assert SameLife(s, Apply(w, s), s.Pointer(c).value);
    }
    if w.SetClient? {
      assert SameLife(s, Apply(w, s), w.u);
    }
  }

  lemma QuietKeepsStore(w: Write, s: Store, born: set<Uuid>)
    requires StoreOk(s, born) && Quiet(w, s, born)
    ensures StoreOk(Apply(w, s), born) && AllSameLife(s, Apply(w, s)) && BornAfter(w, born) == born
  {
    QuietSameLife(w, s, born);
    hide Apply, Quiet, PointerOk;
    forall u
      ensures ChallengeOk(Apply(w, s), born, u)
    {
      assert ChallengeOk(s, born, u);
      if Target(w) == Some(u) {
        QuietKeepsTarget(w, s, born, u);
      } else {
        FrameKeepsChallenge(w, s, born, u);
      }
    }
    forall c
      ensures PointerOk(Apply(w, s), born, c)
    {
      assert PointerOk(s, born, c);
      QuietKeepsPointer(w, s, born, c);
    }
  }

  lemma TurnMoves(w: Write, s: Store, born: set<Uuid>, mine: Option<Uuid>, u: Uuid)
    requires ChallengeOk(s, born, u) && Turn(w, s, born, mine)
    ensures ChallengeOk(Apply(w, s), BornAfter(w, born), u)
    ensures Moved(s, born, Apply(w, s), BornAfter(w, born), mine, u)
  {
    if Target(w) != Some(u) {
      WriteFrame(w, s, u);
      FrameKeepsChallenge(w, s, born, u);
      hide Apply;
    } else if w.SetFields? {
      FieldsMove(u, w.patch, s, born, mine);
    }
  }

  lemma FieldsMove(u: Uuid, p: Patch, s: Store, born: set<Uuid>, mine: Option<Uuid>)
    requires ChallengeOk(s, born, u) && Turn(SetFields(u, p), s, born, mine)
    ensures var w := SetFields(u, p);
      ChallengeOk(Apply(w, s), BornAfter(w, born), u) && Moved(s, born, Apply(w, s), BornAfter(w, born), mine, u)
  {
    var s' := Apply(SetFields(u, p), s);
    assert s'.Hash(u) == p.On(s.Hash(u)) && s'.Clients(u) == s.Clients(u) && s'.Processed(u) == s.Processed(u);
    assert s'.timeouts == s.timeouts;
    hide Apply;
  }

  lemma TurnKeepsPointer(w: Write, s: Store, born: set<Uuid>, mine: Option<Uuid>, c: ClientId)
    requires PointerOk(s, born, c) && Turn(w, s, born, mine)
    ensures PointerOk(Apply(w, s), BornAfter(w, born), c)
  {
    if s.Pointer(c).Some? {
      var u := s.Pointer(c).value;
      if Target(w) != Some(u) {
        WriteFrame(w, s, u);
      }
    }
  }

  lemma TurnKeepsStore(w: Write, s: Store, born: set<Uuid>, mine: Option<Uuid>)
    requires StoreOk(s, born) && Turn(w, s, born, mine)
    ensures StoreOk(Apply(w, s), BornAfter(w, born))
    ensures AllMoved(s, born, Apply(w, s), BornAfter(w, born), mine)
  {
    hide Apply, Turn, ChallengeOk, PointerOk, Moved, BornAfter;
    forall u
      ensures ChallengeOk(Apply(w, s), BornAfter(w, born), u) && Moved(s, born, Apply(w, s), BornAfter(w, born), mine, u)
    {
      TurnMoves(w, s, born, mine, u);
    }
    forall c
      ensures PointerOk(Apply(w, s), BornAfter(w, born), c)
    {
      TurnKeepsPointer(w, s, born, mine, c);
    }
  }

  // ---------------------------------------------------------------- whole commits

  ghost predicate AllQuiet(ws: seq<Write>, s: Store, born: set<Uuid>) {
    forall i :: 0 <= i < |ws| ==> Quiet(ws[i], s, born)
  }

  lemma QuietLater(w: Write, s: Store, s': Store, born: set<Uuid>)
    requires Quiet(w, s, born) && AllSameLife(s, s')
    ensures Quiet(w, s', born)
  {
    if Target(w).Some? {
      assert SameLife(s, s', Target(w).value);
    }
  }

  lemma TurnLater(w: Write, s: Store, s': Store, born: set<Uuid>, mine: Option<Uuid>)
    requires Turn(w, s, born, mine) && AllSameLife(s, s')
    ensures Turn(w, s', born, mine)
  {
    assert SameLife(s, s', w.u);
  }

  lemma {:induction false} QuietAllKeep(ws: seq<Write>, s: Store, born: set<Uuid>)
    requires StoreOk(s, born) && AllQuiet(ws, s, born)
    ensures StoreOk(ApplyAll(ws, s), born) && AllSameLife(s, ApplyAll(ws, s)) && BornAfterAll(ws, born) == born
  {
    if ws == [] {
    } else {
      var init, last := ws[..|ws| - 1], ws[|ws| - 1];
      QuietAllKeep(init, s, born);
      QuietLater(last, s, ApplyAll(init, s), born);
      QuietKeepsStore(last, ApplyAll(init, s), born);
      hide Apply, Quiet, StoreOk;
      forall u
        ensures SameLife(s, ApplyAll(ws, s), u)
      {
        assert SameLife(s, ApplyAll(init, s), u) && SameLife(ApplyAll(init, s), ApplyAll(ws, s), u);
      }
    }
  }

  /** A commit of quiet writes, of which the last may instead move a challenge on. */
  ghost predicate Proper(ws: seq<Write>, s: Store, born: set<Uuid>, mine: Option<Uuid>) {
    ws != [] && AllQuiet(ws[..|ws| - 1], s, born) &&
    (Quiet(ws[|ws| - 1], s, born) || Turn(ws[|ws| - 1], s, born, mine))
  }

  lemma MovedAfterQuiet(
      s: Store, m: Store, s': Store, born: set<Uuid>, born': set<Uuid>, mine: Option<Uuid>, u: Uuid)
    requires SameLife(s, m, u) && Moved(m, born, s', born', mine, u)
    ensures Moved(s, born, s', born', mine, u)
  {
  }

  lemma SameLifeMoves(s: Store, s': Store, born: set<Uuid>, mine: Option<Uuid>)
    requires AllSameLife(s, s')
    ensures AllMoved(s, born, s', born, mine)
  {
    forall u
      ensures Moved(s, born, s', born, mine, u)
    {
      assert SameLife(s, s', u);
    }
  }

  lemma ProperKeeps(ws: seq<Write>, s: Store, born: set<Uuid>, mine: Option<Uuid>)
    requires StoreOk(s, born) && Proper(ws, s, born, mine)
    ensures StoreOk(ApplyAll(ws, s), BornAfterAll(ws, born))
    ensures AllMoved(s, born, ApplyAll(ws, s), BornAfterAll(ws, born), mine)
  {
    hide Apply, Quiet, Turn, StoreOk, Moved, SameLife, BornAfter;
    var init, last := ws[..|ws| - 1], ws[|ws| - 1];
    var m := ApplyAll(init, s);
    QuietAllKeep(init, s, born);
    if Quiet(last, s, born) {
      assert init + [last] == ws;
      QuietAllKeep(ws, s, born);
      SameLifeMoves(s, ApplyAll(ws, s), born, mine);
    } else {
      TurnLater(last, s, m, born, mine);
      TurnKeepsStore(last, m, born, mine);
      forall u
        ensures Moved(s, born, ApplyAll(ws, s), BornAfterAll(ws, born), mine, u)
      {
        assert SameLife(s, m, u);
        MovedAfterQuiet(s, m, ApplyAll(ws, s), born, BornAfterAll(ws, born), mine, u);
      }
    }
  }

  lemma MovedBeforeQuiet(
      s: Store, m: Store, s': Store, born: set<Uuid>, born': set<Uuid>, mine: Option<Uuid>, u: Uuid)
    requires Moved(s, born, m, born', mine, u) && SameLife(m, s', u)
    ensures Moved(s, born, s', born', mine, u)
  {
  }

  lemma TwoWrites(a: Write, b: Write, s: Store, born: set<Uuid>)
    ensures ApplyAll([a, b], s) == Apply(b, Apply(a, s))
    ensures BornAfterAll([a, b], born) == BornAfter(b, BornAfter(a, born))
  {
    hide Apply, BornAfter;
    assert [a, b][..1] == [a] && [a][..0] == [];
    assert ApplyAll([a], s) == Apply(a, ApplyAll([], s)) && BornAfterAll([a], born) == BornAfter(a, BornAfterAll([], born));
  }

  /** Activating a challenge lists its first client in the same commit. */
  lemma ActivationKeeps(
      u: Uuid, stage: int, party: Party, c: ClientId, client: Client, s: Store, born: set<Uuid>)
    requires StoreOk(s, born) && Activates(u, ActivePatch(stage, party), s, born)
    ensures var ws := [SetFields(u, ActivePatch(stage, party)), SetClient(u, c, client)];
      StoreOk(ApplyAll(ws, s), BornAfterAll(ws, born)) && BornAfterAll(ws, born) == born &&
      AllMoved(s, born, ApplyAll(ws, s), born, Some(u))
  {
    var first, second := SetFields(u, ActivePatch(stage, party)), SetClient(u, c, client);
    var m := Apply(first, s);
    var ws := [first, second];
    TwoWrites(first, second, s, born);
    TurnKeepsStore(first, s, born, Some(u));
    assert Phase(m, born, u) == LIVE;
    QuietKeepsStore(second, m, born);
    hide Apply, StoreOk, Moved, SameLife;
    forall v
      ensures Moved(s, born, ApplyAll(ws, s), born, Some(u), v)
    {
      assert Moved(s, born, m, born, Some(u), v) && SameLife(m, Apply(second, m), v);
      MovedBeforeQuiet(s, m, ApplyAll(ws, s), born, born, Some(u), v);
    }
  }

  // ---------------------------------------------------------------- processed stages

  lemma WriteKeepsProcessed(w: Write, s: Store, u: Uuid, stage: int, attempt: Option<int>)
    requires !(w.DeleteData? && w.u == u)
    ensures (stage, attempt) in Apply(w, s).Processed(u) <==>
      (stage, attempt) in s.Processed(u) || w == SetProcessed(u, stage, attempt)
  {
    if Target(w) != Some(u) {
      WriteFrame(w, s, u);
    }
  }

  /** Unless it deletes the challenge's data, a commit adds to the processed stages exactly those it marks. */
  lemma {:induction false} ProcessedKept(ws: seq<Write>, s: Store, u: Uuid, stage: int, attempt: Option<int>)
    requires forall w :: w in ws ==> !(w.DeleteData? && w.u == u)
    ensures (stage, attempt) in ApplyAll(ws, s).Processed(u) <==>
      (stage, attempt) in s.Processed(u) || SetProcessed(u, stage, attempt) in ws
  {
    hide Apply;
    if ws != [] {
      var init, last := ws[..|ws| - 1], ws[|ws| - 1];
      assert ws == init + [last];
      ProcessedKept(init, s, u, stage, attempt);
      WriteKeepsProcessed(last, ApplyAll(init, s), u, stage, attempt);
    }
  }
}
