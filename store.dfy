/** An abstract Redis server, reduced to the commands the message queue issues.

    Every key holds at most one value, and the value's constructor is the
    key's type: a list, a sorted set or a string. Each command is a function
    from the store to the new store and the reply the PHP client returns, with
    `None` standing for the client's `false` (a WRONGTYPE error or a nil
    reply). A command that fails leaves the store as it was. Like Redis, the
    store never keeps an empty list or an empty sorted set: the key goes away. */
module Store {

  type Msg = string
  type Key = string
  type Id = string

  datatype Option<T> = None | Some(value: T) {
    function GetOr(default: T): T {
      if Some? then value else default
    }
  }

  datatype Value =
    | List(items: seq<Msg>)
    | ZSet(scores: map<Id, int>)
    | Str(s: string)

  type DB = map<Key, Value>

  /** The shared server; every queue handle holds a reference to one. */
  class Redis {
    var data: DB

    constructor (data: DB)
      ensures this.data == data
    {
      this.data := data;
    }
  }

  function Lookup(db: DB, k: Key): Option<Value> {
    if k in db then Some(db[k]) else None
  }

  /** Every key outside `ks` holds the same value (or none) in both stores. */
  ghost predicate SameElsewhere(db: DB, db': DB, ks: set<Key>) {
    forall k :: k !in ks ==> Lookup(db', k) == Lookup(db, k)
  }

  /** A key outside the changed ones reads the same through every command. */
  lemma Untouched(db: DB, db': DB, ks: set<Key>, k: Key)
    requires SameElsewhere(db, db', ks) && k !in ks
    ensures ListAt(db', k) == ListAt(db, k)
    ensures ZSetAt(db', k) == ZSetAt(db, k)
    ensures Truthy(db', k) == Truthy(db, k)
    ensures k in db' <==> k in db
  {
    assert Lookup(db', k) == Lookup(db, k);
  }

  // ---------------------------------------------------------------- lists

  /** The list stored at `k`: a missing key reads as the empty list, a key of
      another type is a WRONGTYPE error. Index 0 is the head (left end). */
  function ListAt(db: DB, k: Key): Option<seq<Msg>> {
    if k !in db then Some([])
    else if db[k].List? then Some(db[k].items)
    else None
  }

  function PutList(db: DB, k: Key, xs: seq<Msg>): (r: DB)
    ensures ListAt(r, k) == Some(xs)
    ensures k in r <==> xs != []
    ensures SameElsewhere(db, r, {k})
  {
    if xs == [] then db - {k} else db[k := List(xs)]
  }

  /** LLEN */
  function LLen(db: DB, k: Key): (r: Option<nat>)
    ensures r.Some? <==> ListAt(db, k).Some?
    ensures r.Some? ==> r.value == |ListAt(db, k).value|
  {
    match ListAt(db, k)
    case None => None
    case Some(xs) => Some(|xs|)
  }

  /** LPUSH of one value: prepends it and replies with the new length. */
  function LPush(db: DB, k: Key, m: Msg): (r: (DB, Option<nat>))
    ensures ListAt(db, k).None? ==> r == (db, None)
    ensures ListAt(db, k).Some? ==>
              && ListAt(r.0, k) == Some([m] + ListAt(db, k).value)
              && r.1 == Some(|ListAt(db, k).value| + 1)
              && SameElsewhere(db, r.0, {k})
  {
    match ListAt(db, k)
    case None => (db, None)
    case Some(xs) => (PutList(db, k, [m] + xs), Some(|xs| + 1))
  }

  /** RPUSH of several values: appends them at the tail in order. Redis
      refuses an RPUSH without values. */
  function RPush(db: DB, k: Key, vs: seq<Msg>): (r: (DB, Option<nat>))
    ensures ListAt(db, k).None? || vs == [] ==> r == (db, None)
    ensures ListAt(db, k).Some? && vs != [] ==>
              && ListAt(r.0, k) == Some(ListAt(db, k).value + vs)
              && r.1 == Some(|ListAt(db, k).value| + |vs|)
              && SameElsewhere(db, r.0, {k})
  {
    match ListAt(db, k)
    case None => (db, None)
    case Some(xs) => if vs == [] then (db, None) else (PutList(db, k, xs + vs), Some(|xs| + |vs|))
  }

  /** BRPOPLPUSH without blocking: pops the tail of `src` and pushes it on the
      head of `dst`. An empty `src` replies nil; a `src` or (when there is
      something to move) a `dst` of the wrong type replies an error. */
  function RPopLPush(db: DB, src: Key, dst: Key): (r: (DB, Option<Msg>))
    ensures ListAt(db, src).None? || ListAt(db, src) == Some([]) ==> r == (db, None)
    ensures ListAt(db, dst).None? ==> r == (db, None)
    ensures src != dst && ListAt(db, src).Some? && ListAt(db, src).value != [] && ListAt(db, dst).Some? ==>
              var xs, ys := ListAt(db, src).value, ListAt(db, dst).value;
              && r.1 == Some(xs[|xs| - 1])
              && ListAt(r.0, src) == Some(xs[..|xs| - 1])
              && ListAt(r.0, dst) == Some([xs[|xs| - 1]] + ys)
              && SameElsewhere(db, r.0, {src, dst})
  {
    match ListAt(db, src)
    case None => (db, None)
    case Some(xs) =>
      if xs == [] || ListAt(db, dst).None? then (db, None)
      else
        var m := xs[|xs| - 1];
        var db1 := PutList(db, src, xs[..|xs| - 1]);
        (PutList(db1, dst, [m] + ListAt(db1, dst).GetOr([])), Some(m))
  }

  /** The position of the occurrence of `m` nearest the tail of `xs`. */
  function LastIndex(xs: seq<Msg>, m: Msg): (i: nat)
    requires m in xs
    ensures i < |xs| && xs[i] == m
    ensures forall j :: i < j < |xs| ==> xs[j] != m
  {
    if xs[|xs| - 1] == m then |xs| - 1
    else
      assert xs == xs[..|xs| - 1] + [xs[|xs| - 1]];
      LastIndex(xs[..|xs| - 1], m)
  }

  /** What LREM with count -1 leaves: the occurrence of `m` nearest the tail
      removed, or the list unchanged when `m` does not occur. */
  function RemoveLast(xs: seq<Msg>, m: Msg): seq<Msg> {
    if m in xs then
      var i := LastIndex(xs, m);
      xs[..i] + xs[i + 1..]
    else xs
  }

  lemma RemoveLastRemovesOne(xs: seq<Msg>, m: Msg)
    requires m in xs
    ensures |RemoveLast(xs, m)| == |xs| - 1
    ensures multiset(RemoveLast(xs, m)) == multiset(xs) - multiset{m}
    ensures m !in xs[LastIndex(xs, m) + 1..]
  {
    var i := LastIndex(xs, m);
    assert xs == xs[..i] + [m] + xs[i + 1..];
  }

  /** LREM key -1 value: removes the occurrence nearest the tail and replies
      with the number removed (0 or 1). */
  function LRemFromTail(db: DB, k: Key, m: Msg): (r: (DB, Option<nat>))
    ensures ListAt(db, k).None? ==> r == (db, None)
    ensures ListAt(db, k).Some? && m !in ListAt(db, k).value ==> r == (db, Some(0))
    ensures ListAt(db, k).Some? && m in ListAt(db, k).value ==>
              && r.1 == Some(1)
              && ListAt(r.0, k) == Some(RemoveLast(ListAt(db, k).value, m))
              && SameElsewhere(db, r.0, {k})
  {
    match ListAt(db, k)
    case None => (db, None)
    case Some(xs) =>
      if m in xs then (PutList(db, k, RemoveLast(xs, m)), Some(1)) else (db, Some(0))
  }

  // ---------------------------------------------------------- sorted sets

  function ZSetAt(db: DB, k: Key): Option<map<Id, int>> {
    if k !in db then Some(map[])
    else if db[k].ZSet? then Some(db[k].scores)
    else None
  }

  function PutZSet(db: DB, k: Key, z: map<Id, int>): (r: DB)
    ensures ZSetAt(r, k) == Some(z)
    ensures SameElsewhere(db, r, {k})
  {
    if z == map[] then db - {k} else db[k := ZSet(z)]
  }

  /** ZADD of one member: inserts it or updates its score. */
  function ZAdd(db: DB, k: Key, score: int, member: Id): (r: DB)
    ensures ZSetAt(db, k).None? ==> r == db
    ensures ZSetAt(db, k).Some? ==>
              && ZSetAt(r, k) == Some(ZSetAt(db, k).value[member := score])
              && SameElsewhere(db, r, {k})
  {
    match ZSetAt(db, k)
    case None => db
    case Some(z) => PutZSet(db, k, z[member := score])
  }

  /** The members whose score is at least `min`. */
  function AtOrAbove(z: map<Id, int>, min: int): set<Id> {
    set id | id in z && z[id] >= min
  }

  /** ZCOUNT key min +inf */
  function ZCountFrom(db: DB, k: Key, min: int): (r: Option<nat>)
    ensures r.Some? <==> ZSetAt(db, k).Some?
    ensures r.Some? ==> r.value == |AtOrAbove(ZSetAt(db, k).value, min)|
  {
    match ZSetAt(db, k)
    case None => None
    case Some(z) => Some(|AtOrAbove(z, min)|)
  }

  /** ZREMRANGEBYSCORE key -inf max: drops every member scored at most `max`
      and replies with how many went. */
  function ZRemUpTo(db: DB, k: Key, max: int): (r: (DB, Option<nat>))
    ensures ZSetAt(db, k).None? ==> r == (db, None)
    ensures ZSetAt(db, k).Some? ==>
              var z := ZSetAt(db, k).value;
              && r.1 == Some(|z.Keys - AtOrAbove(z, max + 1)|)
              && ZSetAt(r.0, k).Some?
              && (forall id :: id in ZSetAt(r.0, k).value <==> id in z && z[id] > max)
              && (forall id :: id in ZSetAt(r.0, k).value ==> ZSetAt(r.0, k).value[id] == z[id])
              && SameElsewhere(db, r.0, {k})
  {
    match ZSetAt(db, k)
    case None => (db, None)
    case Some(z) =>
      var kept := map id | id in z && z[id] > max :: z[id];
      (PutZSet(db, k, kept), Some(|z.Keys - AtOrAbove(z, max + 1)|))
  }

  // -------------------------------------------------------------- strings

  /** GET cast to bool, as PHP casts it: a missing key and a key of another
      type read as false, and so do the strings "" and "0". */
  predicate Truthy(db: DB, k: Key) {
    k in db && db[k].Str? && db[k].s != "" && db[k].s != "0"
  }

  /** SET, which overwrites a value of any type. */
  function Set(db: DB, k: Key, v: string): (r: DB)
    ensures Lookup(r, k) == Some(Str(v))
    ensures SameElsewhere(db, r, {k})
  {
    db[k := Str(v)]
  }

  /** DEL of one key, replying 1 when the key existed and 0 otherwise. */
  function Del(db: DB, k: Key): (r: (DB, nat))
    ensures k !in r.0
    ensures r.1 == if k in db then 1 else 0
    ensures SameElsewhere(db, r.0, {k})
  {
    (db - {k}, if k in db then 1 else 0)
  }
}
