/** A challenge's state as typed fields, and its string form in the Redis hash. */
module ChallengeFields {
  import opened Options
  import opened Decimal

  datatype Field =
    | ID | SESSION_ID | UUID | TYPE | MODE | STAGE | STAGE_ATTEMPT | STATUS | STAGE_STATUS | PARTY
    | PLAYERS | TOTAL_DEATHS | CHALLENGE_TICKS | STATE | REPORTED_CHALLENGE_TICKS | REPORTED_OVERALL_TICKS
    | TIMEOUT_STATE | PROCESSING_STAGE | CUSTOM_DATA | PARTY_CHANGED

  const ALL_FIELDS: set<Field> :=
    {ID, SESSION_ID, UUID, TYPE, MODE, STAGE, STAGE_ATTEMPT, STATUS, STAGE_STATUS, PARTY,
     PLAYERS, TOTAL_DEATHS, CHALLENGE_TICKS, STATE, REPORTED_CHALLENGE_TICKS, REPORTED_OVERALL_TICKS,
     TIMEOUT_STATE, PROCESSING_STAGE, CUSTOM_DATA, PARTY_CHANGED}

  datatype Kind = NUMBER | NULLABLE_NUMBER | TEXT | NAMES | JSON | NULLABLE_JSON | FLAG

  function KindOf(f: Field): Kind {
    match f
    case UUID => TEXT
    case PARTY => NAMES
    case PLAYERS => JSON
    case CUSTOM_DATA => NULLABLE_JSON
    case PARTY_CHANGED => FLAG
    case STAGE_ATTEMPT => NULLABLE_NUMBER
    case REPORTED_CHALLENGE_TICKS => NULLABLE_NUMBER
    case REPORTED_OVERALL_TICKS => NULLABLE_NUMBER
    case PROCESSING_STAGE => NULLABLE_NUMBER
    case _ => NUMBER
  }

  /** A field's value; `Missing` stands for what reading an absent number or text yields. */
  datatype Value<J> = Null | Num(n: int) | Text(s: string) | Names(names: seq<string>) | Json(j: J) | Flag(b: bool) | Missing

  predicate Typed<J>(f: Field, v: Value<J>) {
    match KindOf(f)
    case NUMBER => v.Num?
    case NULLABLE_NUMBER => v.Num? || v.Null?
    case TEXT => v.Text?
    case NAMES => v.Names?
    case JSON => v.Json?
    case NULLABLE_JSON => v.Json? || v.Null?
    case FLAG => v.Flag?
  }

  type Hash = map<Field, string>

  ghost predicate TypedState<J>(state: map<Field, Value<J>>) {
    forall f :: f in state ==> Typed(f, state[f])
  }

  ghost predicate Complete<J>(state: map<Field, Value<J>>) {
    TypedState(state) && forall f: Field :: f in state
  }

  /** JSON text as a pair of inverse functions. */
  datatype Codec<!J> = Codec(stringify: J -> string, parse: string -> J)

  ghost predicate Inverse<J(!new)>(c: Codec<J>) {
    forall j :: c.parse(c.stringify(j)) == j && c.stringify(j) != ""
  }

  // ---------------------------------------------------------------- lists of names

  function Join(names: seq<string>): string {
    if names == [] then ""
    else if |names| == 1 then names[0]
    else names[0] + "," + Join(names[1..])
  }

  function Split(s: string): (parts: seq<string>)
    ensures parts != []
  {
    if s == "" then [""]
    else
      var rest := Split(s[1..]);
      if s[0] == ',' then [""] + rest else [[s[0]] + rest[0]] + rest[1..]
  }

  ghost predicate CommaFree(names: seq<string>) {
    forall i :: 0 <= i < |names| ==> ',' !in names[i]
  }

  lemma {:induction false} SplitCommaFree(s: string)
    ensures CommaFree(Split(s))
    decreases |s|
  {
    if s != "" {
      SplitCommaFree(s[1..]);
    }
  }

  lemma {:induction false} SplitPlain(s: string)
    requires ',' !in s
    ensures Split(s) == [s]
    decreases |s|
  {
    if s != "" {
      SplitPlain(s[1..]);
      assert [s[0]] + s[1..] == s;
    }
  }

  lemma {:induction false} SplitFirst(s: string, rest: string)
    requires ',' !in s
    ensures Split(s + "," + rest) == [s] + Split(rest)
    decreases |s|
  {
    var whole := s + "," + rest;
    if s == "" {
      assert whole[1..] == rest;
    } else {
      SplitFirst(s[1..], rest);
      assert whole[1..] == s[1..] + "," + rest;
      assert [s[0]] + s[1..] == s;
    }
  }

  lemma {:induction false} SplitJoinNames(names: seq<string>)
    requires names != [] && CommaFree(names)
    ensures Split(Join(names)) == names
    decreases |names|
  {
    if |names| == 1 {
      SplitPlain(names[0]);
    } else {
      SplitJoinNames(names[1..]);
      SplitFirst(names[0], Join(names[1..]));
    }
  }

  /** A list of names survives joining and splitting exactly if it is not empty and no name has a comma. */
  lemma SplitJoin(names: seq<string>)
    ensures Split(Join(names)) == names <==> names != [] && CommaFree(names)
  {
    SplitCommaFree(Join(names));
    if names != [] && CommaFree(names) {
      SplitJoinNames(names);
    }
  }

  // ---------------------------------------------------------------- converters

  function Encode<J>(c: Codec<J>, v: Value<J>): string {
    match v
    case Num(n) => Show(n)
    case Text(s) => s
    case Names(names) => Join(names)
    case Json(j) => c.stringify(j)
    case Flag(b) => if b then "1" else "0"
    case Null => ""
    case Missing => ""
  }

  function ChallengeToRedis<J>(c: Codec<J>, state: map<Field, Value<J>>): Hash {
    map f | f in state && state[f] != Null && state[f] != Missing :: Encode(c, state[f])
  }

  function ParseNumber<J>(s: string): Value<J> {
    if Parse(s).Some? then Num(Parse(s).value) else Missing
  }

  /** Reads a field that is present in the hash. */
  function Decode<J>(c: Codec<J>, f: Field, s: string): Value<J> {
    match KindOf(f)
    case NUMBER => ParseNumber(s)
    case NULLABLE_NUMBER => if s != "" then ParseNumber(s) else Null
    case TEXT => Text(s)
    case NAMES => Names(Split(s))
    case JSON => Json(c.parse(s))
    case NULLABLE_JSON => if s != "" then Json(c.parse(s)) else Null
    case FLAG => Flag(s == "1")
  }

  /** Reads a field that is absent from the hash. */
  function Absent<J>(f: Field): Value<J> {
    match KindOf(f)
    case NULLABLE_NUMBER => Null
    case NULLABLE_JSON => Null
    case FLAG => Flag(false)
    case _ => Missing
  }

  /** The complete state in a hash; fails, as the source does, without a party or players. */
  function ChallengeFromRedisComplete<J>(c: Codec<J>, hash: Hash): Option<map<Field, Value<J>>> {
    if PARTY !in hash || PLAYERS !in hash then None
    else Some(map f | f in ALL_FIELDS :: if f in hash then Decode(c, f, hash[f]) else Absent(f))
  }

  /** The requested fields that are present in a hash. */
  function ChallengeFromRedisArray<J>(c: Codec<J>, fields: set<Field>, hash: Hash): map<Field, Value<J>> {
    map f | f in fields && f in hash :: Decode(c, f, hash[f])
  }

  // ---------------------------------------------------------------- writing

  datatype HashOp = HSet(fields: Hash) | HDel(field: Field)

  function Apply(op: HashOp, hash: Hash): Hash {
    match op
    case HSet(fields) => hash + fields
    case HDel(field) => hash - {field}
  }

  function ApplyAll(ops: seq<HashOp>, hash: Hash): Hash {
    if ops == [] then hash else Apply(ops[|ops| - 1], ApplyAll(ops[..|ops| - 1], hash))
  }

  function NullFields<J>(fields: map<Field, Value<J>>): set<Field> {
    set f | f in fields && fields[f] == Null
  }

  /** The hash after a partial state is written over it. */
  function Written<J>(c: Codec<J>, hash: Hash, fields: map<Field, Value<J>>): Hash {
    (hash + ChallengeToRedis(c, fields)) - NullFields(fields)
  }

  lemma ApplySnoc(ops: seq<HashOp>, op: HashOp, hash: Hash)
    ensures ApplyAll(ops + [op], hash) == Apply(op, ApplyAll(ops, hash))
  {
    assert (ops + [op])[..|ops|] == ops;
  }

  /** Whatever the hash, the queued operations set the given fields and delete the others. */
  ghost predicate Queues(queue: seq<HashOp>, toSet: Hash, deleted: set<Field>) {
    forall hash :: ApplyAll(queue, hash) == (hash + toSet) - deleted
  }

  lemma QueuesSet(toSet: Hash)
    ensures Queues(if |toSet| > 0 then [HSet(toSet)] else [], toSet, {})
  {
    var queue := if |toSet| > 0 then [HSet(toSet)] else [];
    forall hash
      ensures ApplyAll(queue, hash) == (hash + toSet) - {}
    {
      if |toSet| > 0 {
        assert queue == [] + [HSet(toSet)];
        ApplySnoc([], HSet(toSet), hash);
      } else {
        assert toSet == map[];
      }
    }
  }

  lemma QueuesDelete(queue: seq<HashOp>, toSet: Hash, deleted: set<Field>, f: Field)
    requires Queues(queue, toSet, deleted)
    ensures Queues(queue + [HDel(f)], toSet, deleted + {f})
  {
    forall hash
      ensures ApplyAll(queue + [HDel(f)], hash) == (hash + toSet) - (deleted + {f})
    {
      ApplySnoc(queue, HDel(f), hash);
    }
  }

  /** Queues one HSET for the fields with values and one HDEL for every null field. */
  method SetChallengeFields<J(==)>(c: Codec<J>, fields: map<Field, Value<J>>) returns (queue: seq<HashOp>)
    ensures Queues(queue, ChallengeToRedis(c, fields), NullFields(fields))
  {
    hide Queues;
    var toSet := ChallengeToRedis(c, fields);
    queue := if |toSet| > 0 then [HSet(toSet)] else [];
    QueuesSet(toSet);
    var remaining := NullFields(fields);
    ghost var deleted: set<Field> := {};
    while remaining != {}
      invariant remaining + deleted == NullFields(fields)
      invariant Queues(queue, toSet, deleted)
      decreases remaining
    {
      var f :| f in remaining;
      QueuesDelete(queue, toSet, deleted, f);
      queue := queue + [HDel(f)];
      remaining, deleted := remaining - {f}, deleted + {f};
    }
  }

  // ---------------------------------------------------------------- round trips

  /** One field read back: exact, but for parties that are empty or hold a comma. */
  lemma DecodeEncode<J(!new)>(c: Codec<J>, f: Field, v: Value<J>)
    requires Inverse(c) && Typed(f, v) && v != Null
    ensures Decode(c, f, Encode(c, v)) == v <==> (v.Names? ==> v.names != [] && CommaFree(v.names))
  {
    hide Join, Split, Show, Parse;
    if v.Num? {
      ParseShow(v.n);
    } else if v.Names? {
      SplitJoin(v.names);
    }
  }

  /**
   * Writing a partial state over a stored complete one and reading everything back gives the
   * old state overridden field by field, exactly if the resulting party is not empty and its
   * names are free of commas.
   */
  lemma WriteThenRead<J(!new)>(c: Codec<J>, state: map<Field, Value<J>>, fields: map<Field, Value<J>>)
    requires Inverse(c) && Complete(state) && TypedState(fields)
    ensures var names := (state + fields)[PARTY].names;
      ChallengeFromRedisComplete(c, Written(c, ChallengeToRedis(c, state), fields)) == Some(state + fields) <==>
      names != [] && CommaFree(names)
  {
    hide Decode, Encode, CommaFree, Inverse, Written, ChallengeToRedis, Typed, TypedState, KindOf, Absent, ALL_FIELDS;
    var all, hash := state + fields, Written(c, ChallengeToRedis(c, state), fields);
    forall f: Field
      ensures ReadsBack(c, hash, f, all[f]) && f in ALL_FIELDS && (f == PARTY || f == PLAYERS ==> f in hash)
    {
      FieldReadBack(c, state, fields, f);
    }
    var read := ChallengeFromRedisComplete(c, hash).value;
    assert read == all ==> read[PARTY] == all[PARTY];
    assert forall f: Field :: f != PARTY ==> read[f] == all[f];
  }

  /** A field reads back as its value; the party only if it is not empty and free of commas. */
  ghost predicate ReadsBack<J>(c: Codec<J>, hash: Hash, f: Field, v: Value<J>) {
    (f == PARTY ==> v.Names?) &&
    ((if f in hash then Decode(c, f, hash[f]) else Absent(f)) == v <==> (f == PARTY ==> v.names != [] && CommaFree(v.names)))
  }

  /** What the kind of a field says about its values. */
  lemma KindFacts<J>(f: Field, v: Value<J>)
    requires Typed(f, v)
    ensures v != Missing && (v.Names? <==> f == PARTY) && (v == Null ==> Absent(f) == v)
    ensures f == PARTY || f == PLAYERS ==> v != Null
    ensures f in ALL_FIELDS
  {
  }

  /** One field of a stored state with a partial state written over it, read back. */
  lemma FieldReadBack<J(!new)>(c: Codec<J>, state: map<Field, Value<J>>, fields: map<Field, Value<J>>, f: Field)
    requires Inverse(c) && Complete(state) && TypedState(fields)
    ensures ReadsBack(c, Written(c, ChallengeToRedis(c, state), fields), f, (state + fields)[f])
    ensures f in ALL_FIELDS
    ensures f == PARTY || f == PLAYERS ==> f in Written(c, ChallengeToRedis(c, state), fields)
  {
    hide Decode, Encode, CommaFree, Inverse, KindOf, Typed, Absent, ALL_FIELDS;
    var v := (state + fields)[f];
    assert Typed(f, v);
    KindFacts(f, v);
    FieldWritten(c, state, fields, f);
    hide Written, ChallengeToRedis, Complete, TypedState;
    if v != Null {
      DecodeEncode(c, f, v);
    }
  }

  /** After the write a field is there, with its last value, unless that is null. */
  lemma FieldWritten<J(!new)>(c: Codec<J>, state: map<Field, Value<J>>, fields: map<Field, Value<J>>, f: Field)
    requires Complete(state) && TypedState(fields)
    ensures var v, hash := (state + fields)[f], Written(c, ChallengeToRedis(c, state), fields);
      if v == Null then f !in hash else f in hash && hash[f] == Encode(c, v)
  {
    hide Decode, Encode, KindOf, Typed, Absent, ALL_FIELDS;
    var v := (state + fields)[f];
    assert Typed(f, v) && Typed(f, state[f]);
    KindFacts(f, v);
    KindFacts(f, state[f]);
  }

  /** The fields that may be null. */
  lemma NullableFields<J>(f: Field, n: int, j: J)
    ensures Typed<J>(f, Null) <==>
      f == STAGE_ATTEMPT || f == REPORTED_CHALLENGE_TICKS || f == REPORTED_OVERALL_TICKS || f == PROCESSING_STAGE ||
      f == CUSTOM_DATA
    ensures Typed<J>(f, Null) ==> Typed<J>(f, Num(n)) || (f == CUSTOM_DATA && Typed(f, Json(j)))
  {
  }

  /**
   * A hash can be read if and only if it has a party and players. A field that is absent from it reads as null
   * exactly if the field may be null, and the flag as unset.
   */
  lemma AbsentField<J>(c: Codec<J>, hash: Hash, f: Field)
    requires f !in hash
    ensures ChallengeFromRedisComplete(c, hash).Some? <==> PARTY in hash && PLAYERS in hash
    ensures ChallengeFromRedisComplete(c, hash).Some? ==> f in ChallengeFromRedisComplete(c, hash).value
    ensures ChallengeFromRedisComplete(c, hash).Some? ==>
      var v := ChallengeFromRedisComplete(c, hash).value[f];
      (v == Null <==> Typed<J>(f, Null)) && (f == PARTY_CHANGED ==> v == Flag(false))
  {
    hide Decode, KindOf;
    InAllFields(f);
    hide ALL_FIELDS;
    KindOfNull<J>(f);
  }

  lemma KindOfNull<J>(f: Field)
    ensures Absent<J>(f) == Null <==> Typed<J>(f, Null)
    ensures f == PARTY_CHANGED ==> Absent<J>(f) == Flag(false)
  {
  }

  lemma InAllFields(f: Field)
    ensures f in ALL_FIELDS
  {
  }

  /** The flag is stored as a digit. */
  lemma FlagIsDigit<J>(c: Codec<J>, fields: map<Field, Value<J>>, b: bool)
    requires PARTY_CHANGED in fields && fields[PARTY_CHANGED] == Flag(b)
    ensures PARTY_CHANGED in ChallengeToRedis(c, fields) && ChallengeToRedis(c, fields)[PARTY_CHANGED] == if b then "1" else "0"
  {
  }

  /** Reading some fields of a stored state gives those that are not null. */
  lemma ReadFields<J(!new)>(c: Codec<J>, state: map<Field, Value<J>>, fields: set<Field>)
    requires Inverse(c) && Complete(state) && state[PARTY].names != [] && CommaFree(state[PARTY].names)
    ensures ChallengeFromRedisArray(c, fields, ChallengeToRedis(c, state)) ==
            map f | f in fields && state[f] != Null :: state[f]
  {
    hide Decode, Encode, CommaFree, Inverse;
    forall f: Field | state[f] != Null
      ensures state[f] != Missing && Decode(c, f, Encode(c, state[f])) == state[f]
    {
      assert Typed(f, state[f]);
      DecodeEncode(c, f, state[f]);
      assert state[f].Names? ==> f == PARTY;
    }
  }
}
