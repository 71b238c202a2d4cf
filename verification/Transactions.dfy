/**
 * Optimistic transactions: WATCH, read, queue writes, and a conditional EXEC, interleaved step by
 * step over the shared store. A transaction function is any function from what it has read so far
 * to its next action. A pipeline is a transaction that reads nothing; a plain read is one that
 * queues nothing.
 */
module Transactions {
  import opened Options
  import opened RedisStore

  type Tid = int

  datatype Obs = Obs(key: Key, val: Val)

  datatype Action = Read(key: Key) | Commit(writes: seq<Write>) | Throw

  type Body = seq<Obs> -> Action

  /** One attempt of a transaction: its reads, the keys it watches, whether one of them was touched since. */
  datatype Run = Run(body: Body, obs: seq<Obs>, watched: set<Key>, dirty: bool)

  function Fresh(body: Body): Run {
    Run(body, [], {}, false)
  }

  datatype Event = Event(body: Body, obs: seq<Obs>, writes: seq<Write>)

  /** The store, the transactions in flight, and the log of those that committed writes. */
  datatype State = State(store: Store, runs: map<Tid, Run>, log: seq<Event>)

  datatype Label =
    | Begin(tid: Tid, body: Body) | Watch(tid: Tid) | Fetch(tid: Tid) | Exec(tid: Tid) | Conflict(tid: Tid)
    | Return(tid: Tid) | Abort(tid: Tid)

  /**
   * The other connections after a write: whoever watches a changed key is marked dirty. Being
   * touched without changing may also mark a watcher, but never a connection that watches nothing.
   */
  ghost predicate Touched(before: map<Tid, Run>, after: map<Tid, Run>, s: Store, s': Store) {
    before.Keys == after.Keys &&
    forall tid :: tid in before ==>
      after[tid] == before[tid].(dirty := after[tid].dirty) &&
      (before[tid].dirty ==> after[tid].dirty) &&
      (after[tid].dirty ==> before[tid].dirty || before[tid].watched != {}) &&
      ((exists k :: k in before[tid].watched && At(s, k) != At(s', k)) ==> after[tid].dirty)
  }

  ghost predicate Step(s: State, l: Label, s': State) {
    match l
    case Begin(tid, body) =>
      tid !in s.runs && s' == s.(runs := s.runs[tid := Fresh(body)])
    case Watch(tid) =>
      tid in s.runs &&
      var r := s.runs[tid]; var a := r.body(r.obs);
      a.Read? && a.key !in r.watched && s' == s.(runs := s.runs[tid := r.(watched := r.watched + {a.key})])
    case Fetch(tid) =>
      tid in s.runs &&
      var r := s.runs[tid]; var a := r.body(r.obs);
      a.Read? && a.key in r.watched &&
      s' == s.(runs := s.runs[tid := r.(obs := r.obs + [Obs(a.key, At(s.store, a.key))])])
    case Exec(tid) =>
      tid in s.runs &&
      var r := s.runs[tid]; var a := r.body(r.obs);
      a.Commit? && a.writes != [] && !r.dirty &&
      s'.store == ApplyAll(a.writes, s.store) && s'.log == s.log + [Event(r.body, r.obs, a.writes)] &&
      Touched(s.runs - {tid}, s'.runs, s.store, s'.store)
    case Conflict(tid) =>
      tid in s.runs &&
      var r := s.runs[tid]; var a := r.body(r.obs);
      a.Commit? && a.writes != [] && r.dirty && s' == s.(runs := s.runs[tid := Fresh(r.body)])
    case Return(tid) =>
      tid in s.runs && s.runs[tid].body(s.runs[tid].obs) == Commit([]) && s' == s.(runs := s.runs - {tid})
    case Abort(tid) =>
      tid in s.runs && s' == s.(runs := s.runs - {tid})
  }

  /** A finite execution from a store with nothing in flight. */
  ghost predicate Execution(states: seq<State>, labels: seq<Label>) {
    |states| == |labels| + 1 && states[0].runs == map[] && states[0].log == [] &&
    forall i :: 0 <= i < |labels| ==> Step(states[i], labels[i], states[i + 1])
  }

  // ---------------------------------------------------------------- one transaction alone

  /** The reads are the body's own, and each found what the store holds. */
  ghost predicate ReadsFrom(body: Body, obs: seq<Obs>, s: Store) {
    forall i :: 0 <= i < |obs| ==> body(obs[..i]) == Read(obs[i].key) && obs[i].val == At(s, obs[i].key)
  }

  /** What the body does when it runs on the store without interference. */
  ghost predicate RunsAlone(body: Body, s: Store, obs: seq<Obs>, writes: seq<Write>) {
    ReadsFrom(body, obs, s) && body(obs) == Commit(writes)
  }

  /** Running alone has only one outcome. */
  lemma {:induction false} RunsAloneOnce(body: Body, s: Store, a: seq<Obs>, ws: seq<Write>, b: seq<Obs>, vs: seq<Write>)
    requires RunsAlone(body, s, a, ws) && RunsAlone(body, s, b, vs)
    ensures a == b && ws == vs
  {
    SamePrefix(body, s, a, b, if |a| <= |b| then |a| else |b|);
    assert a[..|a|] == a && b[..|b|] == b;
    assert forall i :: 0 <= i < |a| ==> body(a[..i]) == Read(a[i].key);
    assert forall i :: 0 <= i < |b| ==> body(b[..i]) == Read(b[i].key);
  }

  lemma {:induction false} SamePrefix(body: Body, s: Store, a: seq<Obs>, b: seq<Obs>, n: nat)
    requires ReadsFrom(body, a, s) && ReadsFrom(body, b, s) && n <= |a| && n <= |b|
    ensures a[..n] == b[..n]
  {
    if n > 0 {
      SamePrefix(body, s, a, b, n - 1);
      assert a[..n] == a[..n - 1] + [a[n - 1]] && b[..n] == b[..n - 1] + [b[n - 1]];
    }
  }

  // ---------------------------------------------------------------- what every step keeps

  /** A run's reads are its body's own and watched; while it is clean they are all still current. */
  ghost predicate RunOk(r: Run, s: Store) {
    (forall i :: 0 <= i < |r.obs| ==> r.body(r.obs[..i]) == Read(r.obs[i].key) && r.obs[i].key in r.watched) &&
    (!r.dirty ==> forall i :: 0 <= i < |r.obs| ==> r.obs[i].val == At(s, r.obs[i].key)) &&
    (r.dirty ==> r.watched != {})
  }

  ghost predicate Inv(s: State) {
    forall tid :: tid in s.runs ==> RunOk(s.runs[tid], s.store)
  }

  lemma TouchedKeepsRuns(before: map<Tid, Run>, after: map<Tid, Run>, s: Store, s': Store)
    requires Touched(before, after, s, s')
    requires forall tid :: tid in before ==> RunOk(before[tid], s)
    ensures forall tid :: tid in after ==> RunOk(after[tid], s')
  {
    forall tid | tid in after
      ensures RunOk(after[tid], s')
    {
      var r := before[tid];
      if !after[tid].dirty {
        forall i | 0 <= i < |r.obs|
          ensures r.obs[i].val == At(s', r.obs[i].key)
        {
          assert r.obs[i].key in r.watched;
        }
      }
    }
  }

  lemma FetchKeepsRun(r: Run, s: Store, k: Key)
    requires RunOk(r, s) && r.body(r.obs) == Read(k) && k in r.watched
    ensures RunOk(r.(obs := r.obs + [Obs(k, At(s, k))]), s)
  {
    var obs := r.obs + [Obs(k, At(s, k))];
    assert forall i :: 0 <= i < |r.obs| ==> obs[..i] == r.obs[..i] && obs[i] == r.obs[i];
    assert obs[..|r.obs|] == r.obs;
  }

  lemma InvStep(s: State, l: Label, s': State)
    requires Inv(s) && Step(s, l, s')
    ensures Inv(s')
  {
    match l
    case Fetch(tid) =>
      var r := s.runs[tid];
      FetchKeepsRun(r, s.store, r.body(r.obs).key);
    case Exec(tid) =>
      TouchedKeepsRuns(s.runs - {tid}, s'.runs, s.store, s'.store);
    case _ =>
  }

  lemma {:induction false} InvHolds(states: seq<State>, labels: seq<Label>, n: nat)
    requires Execution(states, labels) && n < |states|
    ensures Inv(states[n])
  {
    if n > 0 {
      InvHolds(states, labels, n - 1);
      InvStep(states[n - 1], labels[n - 1], states[n]);
    }
  }

  /** A transaction that commits writes has read only values still current at its EXEC. */
  lemma CommitReadsCurrent(s: State, tid: Tid, s': State)
    requires Inv(s) && Step(s, Exec(tid), s')
    ensures var r := s.runs[tid]; RunsAlone(r.body, s.store, r.obs, r.body(r.obs).writes)
  {
  }

  lemma ReadersWatch(r: Run, s: Store)
    requires RunOk(r, s)
    ensures r.obs != [] ==> r.watched != {}
  {
    if r.obs != [] {
      assert r.obs[0].key in r.watched;
    }
  }

  /** A pipeline never conflicts: its EXEC is unconditional. */
  lemma PipelineNeverConflicts(s: State, tid: Tid, writes: seq<Write>)
    requires Inv(s) && tid in s.runs && writes != []
    requires forall obs :: s.runs[tid].body(obs) == Commit(writes)
    requires s.runs[tid].watched == {}
    ensures s.runs[tid].obs == [] && !s.runs[tid].dirty
    ensures forall s' :: !Step(s, Conflict(tid), s') && !Step(s, Watch(tid), s') && !Step(s, Fetch(tid), s')
  {
    ReadersWatch(s.runs[tid], s.store);
  }

  // ---------------------------------------------------------------- serializability

  /** The store after the logged writes, one transaction at a time. */
  function Replay(initial: Store, log: seq<Event>): Store {
    if log == [] then initial else ApplyAll(log[|log| - 1].writes, Replay(initial, log[..|log| - 1]))
  }

  /** Each logged transaction, run alone where its turn comes, reads and writes what it did. */
  ghost predicate Serial(initial: Store, log: seq<Event>) {
    forall k :: 0 <= k < |log| ==> RunsAlone(log[k].body, Replay(initial, log[..k]), log[k].obs, log[k].writes)
  }

  /** The store is the result of running the committed transactions and pipelines one at a time in commit order. */
  ghost predicate Serialized(initial: Store, s: State) {
    s.store == Replay(initial, s.log) && Serial(initial, s.log)
  }

  lemma SerialStep(initial: Store, s: State, l: Label, s': State)
    requires Inv(s) && Serialized(initial, s) && Step(s, l, s')
    ensures Serialized(initial, s')
  {
    if l.Exec? {
      CommitReadsCurrent(s, l.tid, s');
      SerialExtended(initial, s.log, s'.log[|s.log|]);
    }
  }

  /** Every execution, however its transactions interleave, is serialized in commit order. */
  lemma {:induction false} Serializable(states: seq<State>, labels: seq<Label>, n: nat)
    requires Execution(states, labels) && n < |states|
    ensures Serialized(states[0].store, states[n])
  {
    if n > 0 {
      Serializable(states, labels, n - 1);
      InvHolds(states, labels, n - 1);
      SerialStep(states[0].store, states[n - 1], labels[n - 1], states[n]);
    }
  }

  lemma SerialExtended(initial: Store, log: seq<Event>, e: Event)
    requires Serial(initial, log) && RunsAlone(e.body, Replay(initial, log), e.obs, e.writes)
    ensures Serial(initial, log + [e])
    ensures Replay(initial, log + [e]) == ApplyAll(e.writes, Replay(initial, log))
  {
    var all := log + [e];
    assert all[..|log|] == log;
    forall k | 0 <= k < |all|
      ensures RunsAlone(all[k].body, Replay(initial, all[..k]), all[k].obs, all[k].writes)
    {
      if k < |log| {
        assert all[..k] == log[..k] && all[k] == log[k];
      }
    }
  }
}
