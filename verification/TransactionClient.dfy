/**
 * The client side of a transaction: it watches each key before first reading it, queues writes, and
 * sends them only if there are any; a conflict starts it afresh. The other connections are arguments:
 * the stores found at its reads and at its EXEC, and whether a watched key was touched by then.
 */
module TransactionClient {
  import opened Options
  import opened RedisStore
  import opened Transactions

  function One<T>(c: Change<T>): nat {
    if c.Clear? then 1 else 0
  }

  /** The fields of a partial state that are null. */
  function Nulls(p: Patch): nat {
    One(p.state) + One(p.timeoutState) + One(p.stage) + One(p.attempt) + One(p.completed) + One(p.processing) + One(p.party)
  }

  predicate SetsAny(p: Patch) {
    p.state.Put? || p.timeoutState.Put? || p.stage.Put? || p.attempt.Put? || p.completed.Put? || p.processing.Put? || p.party.Put?
  }

  /** How many commands a writer method queues: one HSET for all values, and an HDEL for each null. */
  function Commands(w: Write): nat {
    match w
    case SetFields(_, p) => (if SetsAny(p) then 1 else 0) + Nulls(p)
    case SetClient(_, _, _) => 2
    case RemoveClient(_, _) => 2
    case SetTimeout(_, _, _) => 2
    case ClearTimeout(_) => 2
    case DeleteData(_, _) => 5
    case _ => 1
  }

  function AllCommands(ws: seq<Write>): nat {
    if ws == [] then 0 else AllCommands(ws[..|ws| - 1]) + Commands(ws[|ws| - 1])
  }

  /** Only setting no field queues no command, and it changes nothing. */
  lemma NoCommandNoChange(w: Write, s: Store, k: Key)
    ensures Commands(w) == 0 <==> w.SetFields? && w.patch == NO_CHANGE
    ensures Commands(w) == 0 ==> At(Apply(w, s), k) == At(s, k)
  {
  }

  /** A transaction that queued no command would have changed nothing: skipping its EXEC loses nothing. */
  lemma {:induction false} NothingQueued(ws: seq<Write>, s: Store, k: Key)
    requires AllCommands(ws) == 0
    ensures At(ApplyAll(ws, s), k) == At(s, k)
  {
    hide Apply, At, Commands;
    if ws != [] {
      var init := ws[..|ws| - 1];
      NothingQueued(init, s, k);
      NoCommandNoChange(ws[|ws| - 1], ApplyAll(init, s), k);
    }
  }

  /** How an attempt ended; `Unfinished` if it still had to read when the stores it was given ran out. */
  datatype Outcome = Unfinished | Threw | Conflicted | ReadOnly | Committed(store: Store)

  class TransactionClient {
    var multi: seq<Write>
    var queuedOperations: nat
    var watchedKeys: set<Key>
    var obs: seq<Obs>

    constructor ()
      ensures multi == [] && queuedOperations == 0 && watchedKeys == {} && obs == []
    {
      multi, queuedOperations, watchedKeys, obs := [], 0, {}, [];
    }

    /** Sends a WATCH, but only for a key that is not watched yet. */
    method Watch(key: Key) returns (sent: bool)
      modifies this`watchedKeys
      ensures watchedKeys == old(watchedKeys) + {key} && (sent <==> key !in old(watchedKeys))
    {
      sent := key !in watchedKeys;
      if sent {
        watchedKeys := watchedKeys + {key};
      }
    }

    method Get(key: Key, store: Store) returns (val: Val)
      modifies this`watchedKeys, this`obs
      ensures val == At(store, key) && obs == old(obs) + [Obs(key, val)] && watchedKeys == old(watchedKeys) + {key}
    {
      var _ := Watch(key);
      val := At(store, key);
      obs := obs + [Obs(key, val)];
    }

    method Queue(writes: seq<Write>)
      modifies this`multi, this`queuedOperations
      ensures multi == old(multi) + writes && queuedOperations == old(queuedOperations) + AllCommands(writes)
    {
      var before := multi;
      for k := 0 to |writes|
        invariant multi == before + writes[..k] && queuedOperations == old(queuedOperations) + AllCommands(writes[..k])
      {
        assert writes[..k + 1][..k] == writes[..k];
        multi := multi + [writes[k]];
        queuedOperations := queuedOperations + Commands(writes[k]);
      }
      assert writes[..|writes|] == writes;
    }

    method Exec(store: Store, dirty: bool) returns (outcome: Outcome)
      ensures outcome ==
        if queuedOperations == 0 then ReadOnly else if dirty then Conflicted else Committed(ApplyAll(multi, store))
    {
      if queuedOperations > 0 {
        return if dirty then Conflicted else Committed(ApplyAll(multi, store));
      }
      return ReadOnly;
    }
  }

  /** One attempt: the stores its reads and its EXEC find, and whether a watched key was touched in between. */
  datatype Try = Try(views: seq<Store>, execStore: Store, dirty: bool)

  /** What one attempt reads, from nothing on. */
  ghost predicate Reads(body: Body, views: seq<Store>, obs: seq<Obs>) {
    |obs| <= |views| &&
    forall i :: 0 <= i < |obs| ==> body(obs[..i]) == Read(obs[i].key) && obs[i].val == At(views[i], obs[i].key)
  }

  /** How an attempt ends, by what its body does after the reads that fall to it. */
  ghost predicate Ends(body: Body, t: Try, obs: seq<Obs>, o: Outcome) {
    Reads(body, t.views, obs) &&
    match body(obs)
    case Read(_) => |obs| == |t.views| && o == Unfinished
    case Throw => o == Threw
    case Commit(ws) =>
      o == if AllCommands(ws) == 0 then ReadOnly else if t.dirty then Conflicted else Committed(ApplyAll(ws, t.execStore))
  }

  lemma ReadsSnoc(body: Body, views: seq<Store>, obs: seq<Obs>, k: Key)
    requires Reads(body, views, obs) && |obs| < |views| && body(obs) == Read(k)
    ensures Reads(body, views, obs + [Obs(k, At(views[|obs|], k))])
  {
    var all := obs + [Obs(k, At(views[|obs|], k))];
    assert forall i :: 0 <= i < |obs| ==> all[..i] == obs[..i];
    assert all[..|obs|] == obs;
  }

  lemma {:induction false} AgreeUpTo(body: Body, views: seq<Store>, a: seq<Obs>, b: seq<Obs>, n: nat)
    requires Reads(body, views, a) && Reads(body, views, b) && n <= |a| && n <= |b|
    ensures a[..n] == b[..n]
  {
    if n > 0 {
      AgreeUpTo(body, views, a, b, n - 1);
      assert a[..n] == a[..n - 1] + [a[n - 1]] && b[..n] == b[..n - 1] + [b[n - 1]];
    }
  }

  /** What an attempt finds determines what it reads and how it ends. */
  lemma {:induction false} AttemptsAgree(body: Body, t: Try, a: seq<Obs>, o: Outcome, b: seq<Obs>, o': Outcome)
    requires Ends(body, t, a, o) && Ends(body, t, b, o')
    ensures a == b && o == o'
  {
    AgreeUpTo(body, t.views, a, b, if |a| <= |b| then |a| else |b|);
    assert a[..|a|] == a && b[..|b|] == b;
    assert forall i :: 0 <= i < |a| ==> body(a[..i]) == Read(a[i].key);
    assert forall i :: 0 <= i < |b| ==> body(b[..i]) == Read(b[i].key);
  }

  /** As long as the connection was not marked, what the attempt read is unchanged at its EXEC. */
  ghost predicate MarkedWhenTouched(t: Try, obs: seq<Obs>) {
    |obs| <= |t.views| &&
    (!t.dirty ==> forall i :: 0 <= i < |obs| ==> At(t.views[i], obs[i].key) == At(t.execStore, obs[i].key))
  }

  /** What it commits then is what the function, run alone on the store its EXEC found, would have left there. */
  ghost predicate LeftBy(body: Body, s: Store, obs: seq<Obs>, s': Store) {
    exists ws :: RunsAlone(body, s, obs, ws) && ws != [] && s' == ApplyAll(ws, s)
  }

  lemma CommittedRanAlone(body: Body, t: Try, obs: seq<Obs>, store: Store)
    requires Ends(body, t, obs, Committed(store)) && MarkedWhenTouched(t, obs)
    ensures LeftBy(body, t.execStore, obs, store)
  {
    assert RunsAlone(body, t.execStore, obs, body(obs).writes);
  }

  /** Runs the transaction function once, on a new client. */
  method Attempt(body: Body, t: Try) returns (o: Outcome, ghost obs: seq<Obs>)
    ensures Ends(body, t, obs, o)
    ensures forall obs', o' :: Ends(body, t, obs', o') ==> obs' == obs && o' == o
  {
    var txn := new TransactionClient();
    while |txn.obs| < |t.views| && body(txn.obs).Read?
      invariant Reads(body, t.views, txn.obs) && txn.multi == [] && txn.queuedOperations == 0
      decreases |t.views| - |txn.obs|
    {
      var key := body(txn.obs).key;
      ReadsSnoc(body, t.views, txn.obs, key);
      var _ := txn.Get(key, t.views[|txn.obs|]);
    }
    obs := txn.obs;
    match body(txn.obs) {
      case Read(_) =>
        o := Unfinished;
      case Throw =>
        o := Threw;
      case Commit(writes) =>
        txn.Queue(writes);
        assert txn.multi == writes;
        o := txn.Exec(t.execStore, t.dirty);
    }
    forall obs', o' | Ends(body, t, obs', o')
      ensures obs' == obs && o' == o
    {
      AttemptsAgree(body, t, obs', o', obs, o);
    }
  }

  /** Retries until an attempt does not conflict; every attempt starts from nothing. */
  method RetryTransaction(body: Body, tries: seq<Try>) returns (o: Outcome, attempt: nat, ghost readings: seq<seq<Obs>>)
    requires tries != []
    ensures 1 <= attempt <= |tries| && |readings| == attempt
    ensures forall i :: 0 <= i < attempt - 1 ==> Ends(body, tries[i], readings[i], Conflicted)
    ensures Ends(body, tries[attempt - 1], readings[attempt - 1], o)
    ensures o.Conflicted? ==> attempt == |tries|
    ensures o.Committed? ==>
      var t, obs := tries[attempt - 1], readings[attempt - 1];
      MarkedWhenTouched(t, obs) ==> LeftBy(body, t.execStore, obs, o.store)
  {
    attempt, readings := 0, [];
    o := Conflicted;
    while attempt < |tries|
      invariant attempt <= |tries| && |readings| == attempt && o == Conflicted
      invariant forall i :: 0 <= i < attempt ==> Ends(body, tries[i], readings[i], Conflicted)
    {
      ghost var obs;
      o, obs := Attempt(body, tries[attempt]);
      attempt, readings := attempt + 1, readings + [obs];
      if !o.Conflicted? {
        if o.Committed? && MarkedWhenTouched(tries[attempt - 1], obs) {
          CommittedRanAlone(body, tries[attempt - 1], obs, o.store);
        }
        return;
      }
    }
  }
}
