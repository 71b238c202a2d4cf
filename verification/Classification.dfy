/** Splits the clients of a stage into a base, those matching the reference count, and the rest. */
module Classification {
  import opened Options

  datatype ServerTicks = ServerTicks(count: int, precise: bool)

  datatype Client = Client(
    id: int, finalTick: int, accurate: bool, spectator: bool, serverTicks: Option<ServerTicks>)

  datatype Method = ACCURATE_MODAL | PRECISE_SERVER | IMPRECISE_SERVER | RECORDED_TICKS

  datatype Classified = Classified(
    base: Client, matching: seq<Client>, mismatched: seq<Client>, count: int, how: Method)

  // ---------------------------------------------------------------- lists

  function Filter<T(!new)>(f: T -> bool, xs: seq<T>): (ys: seq<T>)
    ensures forall x :: x in ys <==> x in xs && f(x)
  {
    if xs == [] then []
    else Filter(f, xs[..|xs| - 1]) + if f(xs[|xs| - 1]) then [xs[|xs| - 1]] else []
  }

  function Map<T, U>(f: T -> U, xs: seq<T>): (ys: seq<U>)
    ensures |ys| == |xs| && forall i :: 0 <= i < |xs| ==> ys[i] == f(xs[i])
  {
    seq(|xs|, i requires 0 <= i < |xs| => f(xs[i]))
  }

  function Max(xs: seq<int>): (m: int)
    requires xs != []
    ensures m in xs && forall x :: x in xs ==> x <= m
  {
    if |xs| == 1 then xs[0]
    else
      var rest := Max(xs[1..]);
      assert forall x :: x in xs ==> x == xs[0] || x in xs[1..];
      if xs[0] > rest then xs[0] else rest
  }

  lemma {:induction false} FilterCounts<T(!new)>(f: T -> bool, xs: seq<T>, x: T)
    ensures multiset(Filter(f, xs))[x] == if f(x) then multiset(xs)[x] else 0
    decreases |xs|
  {
    if xs != [] {
      FilterCounts(f, xs[..|xs| - 1], x);
      assert xs == xs[..|xs| - 1] + [xs[|xs| - 1]];
    }
  }

  /** Filtering a reordered list gives a reordered list. */
  lemma FilterReordered<T(!new)>(f: T -> bool, xs: seq<T>, ys: seq<T>)
    requires multiset(xs) == multiset(ys)
    ensures multiset(Filter(f, xs)) == multiset(Filter(f, ys))
  {
    forall x ensures multiset(Filter(f, xs))[x] == multiset(Filter(f, ys))[x] {
      FilterCounts(f, xs, x);
      FilterCounts(f, ys, x);
    }
  }

  lemma RemovedAt<T>(xs: seq<T>, i: nat)
    requires i < |xs|
    ensures multiset(xs) == multiset{xs[i]} + multiset(xs[..i] + xs[i + 1..])
  {
    assert xs == xs[..i] + [xs[i]] + xs[i + 1..];
  }

  lemma MapRemovedAt<T, U>(f: T -> U, xs: seq<T>, i: nat)
    requires i < |xs|
    ensures multiset(Map(f, xs)) == multiset{f(xs[i])} + multiset(Map(f, xs[..i] + xs[i + 1..]))
  {
    RemovedAt(Map(f, xs), i);
    assert Map(f, xs[..i] + xs[i + 1..]) == Map(f, xs)[..i] + Map(f, xs)[i + 1..];
  }

  /** Removing the first element from both of two reorderings of a list. */
  lemma RemovedFromBoth<T>(xs: seq<T>, ys: seq<T>, i: nat)
    requires xs != [] && i < |ys| && ys[i] == xs[0] && multiset(xs) == multiset(ys)
    ensures multiset(xs[1..]) == multiset(ys[..i] + ys[i + 1..])
  {
    RemovedAt(ys, i);
    assert xs == [xs[0]] + xs[1..];
    assert multiset(xs[1..]) == multiset(xs) - multiset{xs[0]};
  }

  lemma MapRestored<T, U>(f: T -> U, xs: seq<T>, ys: seq<T>, i: nat)
    requires xs != [] && i < |ys| && ys[i] == xs[0]
    requires multiset(Map(f, xs[1..])) == multiset(Map(f, ys[..i] + ys[i + 1..]))
    ensures multiset(Map(f, xs)) == multiset(Map(f, ys))
  {
    MapRemovedAt(f, ys, i);
    assert Map(f, xs) == [f(xs[0])] + Map(f, xs[1..]);
  }

  lemma {:induction false} MapReordered<T(!new), U>(f: T -> U, xs: seq<T>, ys: seq<T>)
    requires multiset(xs) == multiset(ys)
    ensures multiset(Map(f, xs)) == multiset(Map(f, ys))
    decreases |xs|
  {
    SameElements(xs, ys);
    if xs == [] {
      assert |ys| == |multiset(ys)| == 0;
    } else {
      assert xs[0] in ys;
      var i :| 0 <= i < |ys| && ys[i] == xs[0];
      RemovedFromBoth(xs, ys, i);
      MapReordered(f, xs[1..], ys[..i] + ys[i + 1..]);
      MapRestored(f, xs, ys, i);
    }
  }

  lemma SameElements<T(!new)>(xs: seq<T>, ys: seq<T>)
    requires multiset(xs) == multiset(ys)
    ensures forall x :: x in xs <==> x in ys
  {
    forall x ensures x in xs <==> x in ys {
      assert x in multiset(xs) <==> x in multiset(ys);
    }
  }

  // ---------------------------------------------------------------- consensus

  /** `c` is the modal value, the largest one if several values are modal. */
  ghost predicate IsConsensus(values: seq<int>, c: int) {
    c in values &&
    forall k :: k in values ==>
      multiset(values)[k] < multiset(values)[c] || (multiset(values)[k] == multiset(values)[c] && k <= c)
  }

  /** How often each value occurs, with the distinct values in order of first occurrence. */
  method CountTicks(clients: seq<Client>, key: Client -> int) returns (counts: map<int, nat>, keys: seq<int>)
    ensures forall k :: k in counts <==> k in keys
    ensures forall k :: k in keys <==> k in Map(key, clients)
    ensures forall k :: k in counts ==> counts[k] == multiset(Map(key, clients))[k]
  {
    counts, keys := map[], [];
    for i := 0 to |clients|
      invariant forall k :: k in counts <==> k in keys
      invariant forall k :: k in keys <==> k in Map(key, clients[..i])
      invariant forall k :: k in counts ==> counts[k] == multiset(Map(key, clients[..i]))[k]
    {
      var k := key(clients[i]);
      assert Map(key, clients[..i + 1]) == Map(key, clients[..i]) + [k];
      if k !in counts {
        keys := keys + [k];
      }
      counts := counts[k := (if k in counts then counts[k] else 0) + 1];
    }
    assert clients[..|clients|] == clients;
  }

  function Count(counts: map<int, nat>, k: int): nat {
    if k in counts then counts[k] else 0
  }

  /** The largest of the keys whose count is the largest count. */
  function LargestMode(counts: map<int, nat>, keys: seq<int>): (c: int)
    requires keys != []
    ensures c in keys
    ensures forall k :: k in keys ==> Count(counts, k) < Count(counts, c) || (Count(counts, k) == Count(counts, c) && k <= c)
  {
    var count := (k: int) => Count(counts, k);
    var values := Map(count, keys);
    var maxCount := Max(values);
    var modes := Filter((k: int) => Count(counts, k) == maxCount, keys);
    assert forall i {:trigger values[i]} :: 0 <= i < |keys| ==> values[i] == Count(counts, keys[i]) && values[i] in values;
    assert modes != [] by {
      var i :| 0 <= i < |values| && values[i] == maxCount;
      assert keys[i] in modes;
    }
    Max(modes)
  }

  /** From a list of clients, finds the modal tick count; the source throws if there are none. */
  method GetConsensusTicks(clients: seq<Client>, key: Client -> int) returns (consensus: Option<int>)
    ensures consensus.None? <==> clients == []
    ensures consensus.Some? ==> IsConsensus(Map(key, clients), consensus.value)
  {
    if clients == [] {
      return None;
    }
    var counts, keys := CountTicks(clients, key);
    var k := key(clients[0]);
    assert Map(key, clients)[0] == k && k in keys;
    return Some(LargestMode(counts, keys));
  }

  /** The mode with ties to the largest is unique, whatever the order of the values. */
  lemma ConsensusUnique(xs: seq<int>, ys: seq<int>, c: int, d: int)
    requires multiset(xs) == multiset(ys) && IsConsensus(xs, c) && IsConsensus(ys, d)
    ensures c == d
  {
    SameElements(xs, ys);
  }

  // ---------------------------------------------------------------- base and reference

  /** The comparator of the base selection: longest first, then participants, then lowest ID. */
  function Compare(a: Client, b: Client): int {
    if b.finalTick != a.finalTick then b.finalTick - a.finalTick
    else if a.spectator != b.spectator then (if a.spectator then 1 else 0) - (if b.spectator then 1 else 0)
    else a.id - b.id
  }

  /** First element of the list once stably sorted by `compare`. */
  function FirstSorted(compare: (Client, Client) -> int, clients: seq<Client>): (first: Client)
    requires clients != []
    ensures first in clients
  {
    if |clients| == 1 then clients[0]
    else
      var best := FirstSorted(compare, clients[..|clients| - 1]);
      if compare(clients[|clients| - 1], best) < 0 then clients[|clients| - 1] else best
  }

  /** Nobody recorded longer, of those who did as long a participant is preferred, and then the lowest ID. */
  ghost predicate IsBest(clients: seq<Client>, base: Client) {
    base in clients &&
    forall c :: c in clients ==>
      base.finalTick > c.finalTick ||
      (base.finalTick == c.finalTick &&
       ((!base.spectator && c.spectator) || (base.spectator == c.spectator && base.id <= c.id)))
  }

  ghost predicate IsLowest(clients: seq<Client>, base: Client) {
    base in clients && forall c :: c in clients ==> base.id <= c.id
  }

  lemma {:induction false} FirstSortedIsBest(clients: seq<Client>)
    requires clients != []
    ensures IsBest(clients, FirstSorted(Compare, clients))
    decreases |clients|
  {
    if |clients| > 1 {
      var init := clients[..|clients| - 1];
      FirstSortedIsBest(init);
      assert forall c :: c in clients ==> c in init || c == clients[|clients| - 1];
    }
  }

  function ById(a: Client, b: Client): int {
    a.id - b.id
  }

  lemma {:induction false} FirstSortedIsLowest(clients: seq<Client>)
    requires clients != []
    ensures IsLowest(clients, FirstSorted(ById, clients))
    decreases |clients|
  {
    if |clients| > 1 {
      var init := clients[..|clients| - 1];
      FirstSortedIsLowest(init);
      assert forall c :: c in clients ==> c in init || c == clients[|clients| - 1];
    }
  }

  function Accurate(clients: seq<Client>): seq<Client> {
    Filter((c: Client) => c.accurate, clients)
  }

  function WithServer(clients: seq<Client>, precise: bool): seq<Client> {
    Filter((c: Client) => c.serverTicks.Some? && c.serverTicks.value.precise == precise, clients)
  }

  function FinalTick(c: Client): int {
    c.finalTick
  }

  function ServerCount(c: Client): int {
    if c.serverTicks.Some? then c.serverTicks.value.count else 0
  }

  /** The reference count of a stage without accurate clients. */
  ghost predicate IsReference(clients: seq<Client>, count: int, how: Method) {
    if WithServer(clients, true) != [] then
      how == PRECISE_SERVER && IsConsensus(Map(ServerCount, WithServer(clients, true)), count)
    else if WithServer(clients, false) != [] then
      how == IMPRECISE_SERVER && IsConsensus(Map(ServerCount, WithServer(clients, false)), count)
    else
      how == RECORDED_TICKS && count in Map(FinalTick, clients) &&
      forall t :: t in Map(FinalTick, clients) ==> t <= count
  }

  method SelectReferenceCount(clients: seq<Client>) returns (count: int, how: Method)
    requires clients != []
    ensures IsReference(clients, count, how)
  {
    var precise := WithServer(clients, true);
    var serverClients := if precise != [] then precise else WithServer(clients, false);
    if serverClients != [] {
      var consensus := GetConsensusTicks(serverClients, ServerCount);
      return consensus.value, if precise != [] then PRECISE_SERVER else IMPRECISE_SERVER;
    }
    return Max(Map(FinalTick, clients)), RECORDED_TICKS;
  }

  // ---------------------------------------------------------------- classification

  predicate Matches(base: Client, count: int, c: Client) {
    c.id != base.id && base.accurate && c.accurate && c.finalTick == count
  }

  predicate Mismatches(base: Client, count: int, c: Client) {
    c.id != base.id && !Matches(base, count, c)
  }

  function MatchingOf(clients: seq<Client>, base: Client, count: int): seq<Client> {
    Filter((c: Client) => Matches(base, count, c), clients)
  }

  function MismatchedOf(clients: seq<Client>, base: Client, count: int): seq<Client> {
    Filter((c: Client) => Mismatches(base, count, c), clients)
  }

  lemma SplitOne(clients: seq<Client>, i: nat, base: Client, count: int)
    requires i < |clients|
    ensures var c := clients[i];
      MatchingOf(clients[..i + 1], base, count) ==
      MatchingOf(clients[..i], base, count) + (if Matches(base, count, c) then [c] else [])
    ensures var c := clients[i];
      MismatchedOf(clients[..i + 1], base, count) ==
      MismatchedOf(clients[..i], base, count) + (if Mismatches(base, count, c) then [c] else [])
  {
    hide Matches, Mismatches;
    assert clients[..i + 1][..i] == clients[..i];
  }

  function AtCount(clients: seq<Client>, count: int): seq<Client> {
    Filter((c: Client) => c.finalTick == count, Accurate(clients))
  }

  /** What the base, the reference count and its method are. */
  ghost predicate IsBaseSelection(clients: seq<Client>, base: Client, count: int, how: Method) {
    if Accurate(clients) != [] then
      how == ACCURATE_MODAL && IsConsensus(Map(FinalTick, Accurate(clients)), count) &&
      IsLowest(AtCount(clients, count), base)
    else
      IsBest(clients, base) && IsReference(clients, count, how)
  }

  /** What a classification of the clients is. */
  ghost predicate IsClassification(clients: seq<Client>, r: Classified) {
    IsBaseSelection(clients, r.base, r.count, r.how) &&
    r.matching == MatchingOf(clients, r.base, r.count) && r.mismatched == MismatchedOf(clients, r.base, r.count)
  }

  /** The base client and the reference count: accurate clients first, then the most complete one. */
  method SelectBase(clients: seq<Client>) returns (base: Client, referenceTicks: int, how: Method)
    requires clients != []
    ensures IsBaseSelection(clients, base, referenceTicks, how)
  {
    var accurateClients := Accurate(clients);
    if accurateClients != [] {
      var consensus := GetConsensusTicks(accurateClients, FinalTick);
      referenceTicks, how := consensus.value, ACCURATE_MODAL;
      var candidates := AtCount(clients, referenceTicks);
      assert candidates != [] by {
        var i :| 0 <= i < |accurateClients| && Map(FinalTick, accurateClients)[i] == referenceTicks;
        assert accurateClients[i] in candidates;
      }
      FirstSortedIsLowest(candidates);
      base := FirstSorted(ById, candidates);
    } else {
      FirstSortedIsBest(clients);
      base := FirstSorted(Compare, clients);
      referenceTicks, how := SelectReferenceCount(clients);
    }
  }

  /** Splits the clients into a base, matching and mismatched ones. */
  method ClassifyClients(clients: seq<Client>) returns (r: Classified)
    requires clients != []
    ensures IsClassification(clients, r)
    ensures CountMeans(clients, r.count, r.how) && BaseMeans(clients, r) && SplitMeans(clients, r)
  {
    hide IsBaseSelection, MatchingOf, MismatchedOf, CountMeans, BaseMeans, SplitMeans;
    var base, referenceTicks, selectionMethod := SelectBase(clients);
    SplitNone(base, referenceTicks);
    var matching, mismatched := [], [];
    for i := 0 to |clients|
      invariant matching == MatchingOf(clients[..i], base, referenceTicks)
      invariant mismatched == MismatchedOf(clients[..i], base, referenceTicks)
    {
      SplitOne(clients, i, base, referenceTicks);
      if clients[i].id != base.id {
        var isMatching := base.accurate && clients[i].accurate && clients[i].finalTick == referenceTicks;
        if isMatching {
          matching := matching + [clients[i]];
        } else {
          mismatched := mismatched + [clients[i]];
        }
      }
    }
    assert clients[..|clients|] == clients;
    r := Classified(base, matching, mismatched, referenceTicks, selectionMethod);
    ClassificationMeans(clients, r);
  }

  // ---------------------------------------------------------------- what a classification means for each client

  /** The client has a count of the kind that the method goes by, and it is this one. */
  ghost predicate Counts(how: Method, c: Client, count: int) {
    match how
    case ACCURATE_MODAL => c.accurate && c.finalTick == count
    case PRECISE_SERVER => c.serverTicks == Some(ServerTicks(count, true))
    case IMPRECISE_SERVER => c.serverTicks == Some(ServerTicks(count, false))
    case RECORDED_TICKS => c.finalTick == count
  }

  /** The places of the clients that have the count. */
  ghost function Places(clients: seq<Client>, how: Method, count: int): set<nat> {
    set i: nat | i < |clients| && Counts(how, clients[i], count)
  }

  /** No count occurs more often than this one, and of those that occur as often it is the largest. */
  ghost predicate MostHave(clients: seq<Client>, how: Method, count: int) {
    Places(clients, how, count) != {} &&
    forall k ::
      |Places(clients, how, k)| < |Places(clients, how, count)| ||
      (|Places(clients, how, k)| == |Places(clients, how, count)| && k <= count)
  }

  /** The reference count of a stage, and where it is taken from. */
  ghost predicate CountMeans(clients: seq<Client>, count: int, how: Method) {
    (how != ACCURATE_MODAL ==> forall c :: c in clients ==> !c.accurate) &&
    match how
    case ACCURATE_MODAL => MostHave(clients, how, count)
    case PRECISE_SERVER => MostHave(clients, how, count)
    case IMPRECISE_SERVER =>
      MostHave(clients, how, count) && forall c :: c in clients && c.serverTicks.Some? ==> !c.serverTicks.value.precise
    case RECORDED_TICKS =>
      (forall c :: c in clients ==> c.serverTicks.None? && c.finalTick <= count) &&
      exists c :: c in clients && c.finalTick == count
  }

  /** Which client is the base. */
  ghost predicate BaseMeans(clients: seq<Client>, r: Classified) {
    if r.how == ACCURATE_MODAL then
      r.base in clients && r.base.accurate && r.base.finalTick == r.count &&
      forall c :: c in clients && c.accurate && c.finalTick == r.count ==> r.base.id <= c.id
    else IsBest(clients, r.base)
  }

  /** Which clients match the base, and which do not. */
  ghost predicate SplitMeans(clients: seq<Client>, r: Classified) {
    forall c ::
      (c in r.matching <==>
       c in clients && c.id != r.base.id && r.base.accurate && c.accurate && c.finalTick == r.count) &&
      (c in r.mismatched <==>
       c in clients && c.id != r.base.id && !(r.base.accurate && c.accurate && c.finalTick == r.count))
  }

  /** The counts that the method goes by. */
  ghost function Values(clients: seq<Client>, how: Method): seq<int> {
    match how
    case ACCURATE_MODAL => Map(FinalTick, Accurate(clients))
    case PRECISE_SERVER => Map(ServerCount, WithServer(clients, true))
    case IMPRECISE_SERVER => Map(ServerCount, WithServer(clients, false))
    case RECORDED_TICKS => Map(FinalTick, clients)
  }

  lemma ValuesSnoc(clients: seq<Client>, how: Method, k: int)
    requires clients != []
    ensures var n := |clients| - 1;
      multiset(Values(clients, how))[k] ==
      multiset(Values(clients[..n], how))[k] + if Counts(how, clients[n], k) then 1 else 0
  {
    var n := |clients| - 1;
    var init, last := clients[..n], clients[n];
    match how
    case ACCURATE_MODAL => MapSnoc(FinalTick, Accurate(init), last, k);
    case PRECISE_SERVER => MapSnoc(ServerCount, WithServer(init, true), last, k);
    case IMPRECISE_SERVER => MapSnoc(ServerCount, WithServer(init, false), last, k);
    case RECORDED_TICKS =>
      MapSnoc(FinalTick, init, last, k);
      assert clients == init + [last];
  }

  lemma MapSnoc(f: Client -> int, xs: seq<Client>, x: Client, k: int)
    ensures multiset(Map(f, xs + [x]))[k] == multiset(Map(f, xs))[k] + (if f(x) == k then 1 else 0) && xs + [] == xs
  {
    assert Map(f, xs + [x]) == Map(f, xs) + [f(x)];
  }

  lemma PlacesSnoc(clients: seq<Client>, how: Method, k: int)
    requires clients != []
    ensures var n := |clients| - 1;
      |Places(clients, how, k)| == |Places(clients[..n], how, k)| + if Counts(how, clients[n], k) then 1 else 0
  {
    hide Counts;
    var n := |clients| - 1;
    assert Places(clients, how, k) == Places(clients[..n], how, k) + (if Counts(how, clients[n], k) then {n} else {});
  }

  lemma {:induction false} CountedPlaces(clients: seq<Client>, how: Method, k: int)
    ensures multiset(Values(clients, how))[k] == |Places(clients, how, k)|
    decreases |clients|
  {
    hide Counts, Values;
    if clients == [] {
      assert Places(clients, how, k) == {};
      NoValues(how);
    } else {
      CountedPlaces(clients[..|clients| - 1], how, k);
      ValuesSnoc(clients, how, k);
      PlacesSnoc(clients, how, k);
    }
  }

  lemma NoValues(how: Method)
    ensures Values([], how) == []
  {
  }

  lemma ConsensusMeans(clients: seq<Client>, how: Method, count: int)
    requires IsConsensus(Values(clients, how), count)
    ensures MostHave(clients, how, count)
  {
    hide Values, Places;
    var values := Values(clients, how);
    forall k
      ensures |Places(clients, how, k)| == multiset(values)[k]
      ensures k in values <==> multiset(values)[k] > 0
    {
      CountedPlaces(clients, how, k);
    }
  }

  lemma ReferenceMeans(clients: seq<Client>, count: int, how: Method)
    requires IsReference(clients, count, how) && forall c :: c in clients ==> !c.accurate
    ensures how != ACCURATE_MODAL && CountMeans(clients, count, how)
  {
    hide IsConsensus, MostHave;
    forall c | c in clients
      ensures c.serverTicks.Some? ==> c in WithServer(clients, c.serverTicks.value.precise)
      ensures c.finalTick in Map(FinalTick, clients)
    {
      var i :| 0 <= i < |clients| && clients[i] == c;
      assert Map(FinalTick, clients)[i] == c.finalTick;
    }
    if how == RECORDED_TICKS {
      var i :| 0 <= i < |clients| && Map(FinalTick, clients)[i] == count;
      assert clients[i] in clients;
    } else {
      ConsensusMeans(clients, how, count);
    }
  }

  /** A classification, client by client. */
  lemma ClassificationMeans(clients: seq<Client>, r: Classified)
    requires IsClassification(clients, r)
    ensures CountMeans(clients, r.count, r.how) && BaseMeans(clients, r) && SplitMeans(clients, r)
  {
    hide IsConsensus, MostHave, IsReference;
    if Accurate(clients) != [] {
      ConsensusMeans(clients, ACCURATE_MODAL, r.count);
    } else {
      assert forall c :: c in clients && c.accurate ==> c in Accurate(clients);
      ReferenceMeans(clients, r.count, r.how);
    }
  }

  lemma SplitNone(base: Client, count: int)
    ensures MatchingOf([], base, count) == [] && MismatchedOf([], base, count) == []
  {
  }

  function SameId(clients: seq<Client>, base: Client): seq<Client> {
    Filter((c: Client) => c.id == base.id, clients)
  }

  /** Every client is one of those with the base's ID, a matching one or a mismatched one. */
  lemma SplitById(clients: seq<Client>, r: Classified)
    requires IsClassification(clients, r)
    ensures multiset(clients) == multiset(SameId(clients, r.base)) + multiset(r.matching) + multiset(r.mismatched)
  {
    forall c
      ensures multiset(clients)[c] ==
        multiset(SameId(clients, r.base))[c] + multiset(r.matching)[c] + multiset(r.mismatched)[c]
    {
      FilterCounts((c: Client) => c.id == r.base.id, clients, c);
      FilterCounts((c: Client) => Matches(r.base, r.count, c), clients, c);
      FilterCounts((c: Client) => Mismatches(r.base, r.count, c), clients, c);
    }
  }

  /**
   * Nothing is lost or repeated exactly when the base's ID occurs once: every other client with
   * that ID would be dropped.
   */
  lemma PartitionIffUnique(clients: seq<Client>, r: Classified)
    requires IsClassification(clients, r)
    ensures multiset(clients) == multiset{r.base} + multiset(r.matching) + multiset(r.mismatched) <==>
            |SameId(clients, r.base)| == 1
  {
    SplitById(clients, r);
    BaseIsClient(clients, r);
    assert r.base in SameId(clients, r.base);
    hide IsClassification, SameId;
    OneRemoved(SameId(clients, r.base), r.base, multiset(r.matching), multiset(r.mismatched));
  }

  lemma OneRemoved(same: seq<Client>, base: Client, m: multiset<Client>, n: multiset<Client>)
    requires base in same
    ensures multiset(same) + m + n == multiset{base} + m + n <==> |same| == 1
  {
    if |same| == 1 {
      assert same == [base];
    } else {
      assert |multiset(same) + m + n| == |same| + |m| + |n|;
      assert |multiset{base} + m + n| == 1 + |m| + |n|;
    }
  }

  lemma BaseIsClient(clients: seq<Client>, r: Classified)
    requires IsClassification(clients, r)
    ensures r.base in clients
  {
  }

  predicate DistinctIds(clients: seq<Client>) {
    forall i, j :: 0 <= i < j < |clients| ==> clients[i].id != clients[j].id
  }

  lemma SameIdSameClient(clients: seq<Client>, a: Client, b: Client)
    requires DistinctIds(clients) && a in clients && b in clients && a.id == b.id
    ensures a == b
  {
    var i :| 0 <= i < |clients| && clients[i] == a;
    var j :| 0 <= j < |clients| && clients[j] == b;
  }

  lemma ReferenceReordered(xs: seq<Client>, ys: seq<Client>, c: int, m: Method, d: int, n: Method)
    requires multiset(xs) == multiset(ys) && IsReference(xs, c, m) && IsReference(ys, d, n)
    ensures c == d && m == n
  {
    forall precise: bool
      ensures WithServer(xs, precise) == [] <==> WithServer(ys, precise) == []
      ensures multiset(Map(ServerCount, WithServer(xs, precise))) == multiset(Map(ServerCount, WithServer(ys, precise)))
    {
      FilterReordered((c: Client) => c.serverTicks.Some? && c.serverTicks.value.precise == precise, xs, ys);
      assert |multiset(WithServer(xs, precise))| == |multiset(WithServer(ys, precise))|;
      MapReordered(ServerCount, WithServer(xs, precise), WithServer(ys, precise));
    }
    MapReordered(FinalTick, xs, ys);
    SameElements(Map(FinalTick, xs), Map(FinalTick, ys));
    if m == PRECISE_SERVER {
      ConsensusUnique(Map(ServerCount, WithServer(xs, true)), Map(ServerCount, WithServer(ys, true)), c, d);
    } else if m == IMPRECISE_SERVER {
      ConsensusUnique(Map(ServerCount, WithServer(xs, false)), Map(ServerCount, WithServer(ys, false)), c, d);
    }
  }

  lemma BaseReordered(xs: seq<Client>, ys: seq<Client>, r: Classified, s: Classified)
    requires multiset(xs) == multiset(ys) && DistinctIds(xs)
    requires IsClassification(xs, r) && IsClassification(ys, s)
    ensures r.base == s.base && r.count == s.count && r.how == s.how
  {
    SameElements(xs, ys);
    FilterReordered((c: Client) => c.accurate, xs, ys);
    assert |multiset(Accurate(xs))| == |multiset(Accurate(ys))|;
    if Accurate(xs) != [] {
      MapReordered(FinalTick, Accurate(xs), Accurate(ys));
      ConsensusUnique(Map(FinalTick, Accurate(xs)), Map(FinalTick, Accurate(ys)), r.count, s.count);
      FilterReordered((c: Client) => c.finalTick == r.count, Accurate(xs), Accurate(ys));
      SameElements(AtCount(xs, r.count), AtCount(ys, r.count));
      SameIdSameClient(xs, r.base, s.base);
    } else {
      ReferenceReordered(xs, ys, r.count, r.how, s.count, s.how);
      SameIdSameClient(xs, r.base, s.base);
    }
  }

  /** For distinct client IDs the classification does not depend on the order of the input. */
  lemma OrderIndependent(xs: seq<Client>, ys: seq<Client>, r: Classified, s: Classified)
    requires multiset(xs) == multiset(ys) && DistinctIds(xs)
    requires IsClassification(xs, r) && IsClassification(ys, s)
    ensures r.base == s.base && r.count == s.count && r.how == s.how
    ensures multiset(r.matching) == multiset(s.matching) && multiset(r.mismatched) == multiset(s.mismatched)
  {
    BaseReordered(xs, ys, r, s);
    FilterReordered((c: Client) => Matches(r.base, r.count, c), xs, ys);
    FilterReordered((c: Client) => Mismatches(r.base, r.count, c), xs, ys);
  }
}
