/** The publishing side of the queue (class Publisher): pushes messages onto
    the head of the pending list, one at a time or in pipelined batches,
    pauses and resumes delivery, and moves every in-flight message back to
    pending once no subscriber is alive. */
module Publishing {

  import opened Store
  import opened Handle

  /** Messages per pipeline in pubMultiple. */
  const BatchSize: nat := 5000

  /** Seconds reQueueAll sleeps between two looks at the registry. */
  const WaitSeconds: int := SubscriberTimeout / 2

  // -------------------------------------------------------------- batching

  function Flatten<T>(cs: seq<seq<T>>): seq<T> {
    if cs == [] then [] else cs[0] + Flatten(cs[1..])
  }

  lemma {:induction false} FlattenSnoc<T>(cs: seq<seq<T>>, c: seq<T>)
    ensures Flatten(cs + [c]) == Flatten(cs) + c
    decreases |cs|
  {
    if cs == [] {
      assert [] + [c] == [c];
    } else {
      assert (cs + [c])[1..] == cs[1..] + [c];
      FlattenSnoc(cs[1..], c);
    }
  }

  /** array_chunk: `s` cut, in order, into pieces of `size`, the last one
      possibly shorter; no piece is empty. */
  function Chunks<T>(s: seq<T>, size: nat): (cs: seq<seq<T>>)
    requires size > 0
    ensures Flatten(cs) == s
    ensures forall i :: 0 <= i < |cs| ==> 0 < |cs[i]| <= size
    ensures forall i :: 0 <= i < |cs| - 1 ==> |cs[i]| == size
    ensures (|cs| - 1) * size < |s| <= |cs| * size || (s == [] && cs == [])
    decreases |s|
  {
    if |s| <= size then
      if s == [] then [] else [s]
    else
      var rest := Chunks(s[size..], size);
      assert s == s[..size] + s[size..];
      [s[..size]] + rest
  }

  /** 12001 messages go out in three pipelines of 5000, 5000 and 2001. */
  lemma ChunksOf12001<T>(s: seq<T>)
    requires |s| == 12001
    ensures var cs := Chunks(s, BatchSize);
            |cs| == 3 && |cs[0]| == 5000 && |cs[1]| == 5000 && |cs[2]| == 2001
  {
    var s1 := s[BatchSize..];
    var s2 := s1[BatchSize..];
    assert Chunks(s2, BatchSize) == [s2];
    assert Chunks(s1, BatchSize) == [s1[..BatchSize]] + [s2];
    assert Chunks(s, BatchSize) == [s[..BatchSize]] + ([s1[..BatchSize]] + [s2]);
  }

  function Reverse<T>(s: seq<T>): (r: seq<T>)
    ensures |r| == |s|
  {
    if s == [] then [] else [s[|s| - 1]] + Reverse(s[..|s| - 1])
  }

  lemma {:induction false} ReverseIndex<T>(s: seq<T>, i: nat)
    requires i < |s|
    ensures Reverse(s)[i] == s[|s| - 1 - i]
    decreases |s|
  {
    if i > 0 {
      ReverseIndex(s[..|s| - 1], i - 1);
    }
  }

  /** The LPUSH of each message in turn, with the replies in order: what the
      pipelines of pubMultiple do, chunk after chunk. */
  function PushAll(db: DB, k: Key, ms: seq<Msg>): (DB, seq<Option<nat>>)
    decreases |ms|
  {
    if ms == [] then (db, [])
    else
      var (d, rs) := PushAll(db, k, ms[..|ms| - 1]);
      var (d', r) := LPush(d, k, ms[|ms| - 1]);
      (d', rs + [r])
  }

  /** On a list of length n, the i-th push replies n + i + 1 and the messages
      end up in front of the old list, last message first. */
  lemma {:induction false} PushAllOnList(db: DB, k: Key, ms: seq<Msg>)
    requires ListAt(db, k).Some?
    ensures var (d, rs) := PushAll(db, k, ms);
            var xs := ListAt(db, k).value;
            && ListAt(d, k) == Some(Reverse(ms) + xs)
            && |rs| == |ms|
            && (forall i :: 0 <= i < |rs| ==> rs[i] == Some(|xs| + i + 1))
            && SameElsewhere(db, d, {k})
    decreases |ms|
  {
    if ms != [] {
      var init, m := ms[..|ms| - 1], ms[|ms| - 1];
      PushAllOnList(db, k, init);
      var xs := ListAt(db, k).value;
      var (d, rs) := PushAll(db, k, init);
      var (d', r) := LPush(d, k, m);
      assert PushAll(db, k, ms) == (d', rs + [r]);
      assert ListAt(d', k) == Some([m] + (Reverse(init) + xs));
      assert [m] + (Reverse(init) + xs) == Reverse(ms) + xs;
      assert r == Some(|xs| + |ms|);
    } else {
      assert Reverse(ms) + ListAt(db, k).value == ListAt(db, k).value;
    }
  }

  /** Pushing two runs of messages one after the other is pushing their concatenation. */
  lemma {:induction false} PushAllConcat(db: DB, k: Key, a: seq<Msg>, b: seq<Msg>)
    ensures var (d1, r1) := PushAll(db, k, a);
            var (d2, r2) := PushAll(d1, k, b);
            PushAll(db, k, a + b) == (d2, r1 + r2)
    decreases |b|
  {
    if b == [] {
      assert a + b == a;
      assert PushAll(db, k, a).1 + [] == PushAll(db, k, a).1;
    } else {
      var init := b[..|b| - 1];
      PushAllConcat(db, k, a, init);
      assert (a + b)[..|a + b| - 1] == a + init;
      assert (a + b)[|a + b| - 1] == b[|b| - 1];
      var (d1, r1) := PushAll(db, k, a);
      var (d2, r2) := PushAll(d1, k, init);
      var (d3, r) := LPush(d2, k, b[|b| - 1]);
      assert PushAll(d1, k, b) == (d3, r2 + [r]);
      assert (r1 + r2) + [r] == r1 + (r2 + [r]);
    }
  }

  /** When the pending key holds another type, every push fails and nothing changes. */
  lemma {:induction false} PushAllWrongType(db: DB, k: Key, ms: seq<Msg>)
    requires ListAt(db, k).None?
    ensures var (d, rs) := PushAll(db, k, ms);
            d == db && |rs| == |ms| && forall i :: 0 <= i < |rs| ==> rs[i].None?
    decreases |ms|
  {
    if ms != [] {
      PushAllWrongType(db, k, ms[..|ms| - 1]);
    }
  }

  // ------------------------------------------------------------ publishing

  /** pub on a configured handle: LPUSH onto pending; PHP turns the client's
      false into 0 for the int return type. */
  function PubEffect(db: DB, k: Keys, m: Msg): (r: (DB, nat))
    ensures ListAt(db, k.pending).None? ==> r == (db, 0)
    ensures ListAt(db, k.pending).Some? ==>
              var xs := ListAt(db, k.pending).value;
              && ListAt(r.0, k.pending) == Some([m] + xs)
              && r.1 == |xs| + 1
              && SameElsewhere(db, r.0, {k.pending})
  {
    var (d, n) := LPush(db, k.pending, m);
    (d, n.GetOr(0))
  }

  // -------------------------------------------------------------- recovery

  /** The Lua script of reQueueAll: LRANGE all of the processing list, RPUSH
      it onto the tail of pending, DEL the processing list, and reply with
      what DEL replies. A command that fails aborts the script; the client
      then returns false, which the int return type turns into 0. */
  function RecoverScript(db: DB, src: Key, dst: Key): (DB, nat) {
    match ListAt(db, src)
    case None => (db, 0)
    case Some(res) =>
      var (d, pushed) := RPush(db, dst, res);
      if pushed.None? then (db, 0) else Del(d, src)
  }

  /** reQueueAll on a configured handle, once the wait is over: the flag is
      set, the script runs when the processing list is non-empty, and the
      flag is deleted again. */
  function RecoverEffect(db: DB, k: Keys): (DB, nat) {
    var paused := Set(db, k.shutdown, "1");
    var (d, res) :=
      if LLen(paused, k.processing).GetOr(0) > 0 then RecoverScript(paused, k.processing, k.pending)
      else (paused, 0);
    (Del(d, k.shutdown).0, res)
  }

  /** Recovery appends the processing list to the tail of pending, where
      SUB pops first, empties the processing list, clears the pause flag and
      touches nothing else; it replies 1 when something moved and 0 when
      nothing did. */
  lemma RecoverMovesProcessing(db: DB, k: Keys)
    requires Distinct(k)
    requires ListAt(db, k.pending).Some? && ListAt(db, k.processing).Some?
    ensures var (d, res) := RecoverEffect(db, k);
            var pending, processing := ListAt(db, k.pending).value, ListAt(db, k.processing).value;
            && ListAt(d, k.pending) == Some(pending + processing)
            && ListAt(d, k.processing) == Some([])
            && !Truthy(d, k.shutdown) && k.shutdown !in d
            && res == (if processing == [] then 0 else 1)
            && SameElsewhere(db, d, {k.pending, k.processing, k.shutdown})
  {
    var paused := Set(db, k.shutdown, "1");
    var pending, processing := ListAt(db, k.pending).value, ListAt(db, k.processing).value;
    assert ListAt(paused, k.processing) == Some(processing);
    assert ListAt(paused, k.pending) == Some(pending);
    if processing == [] {
      assert pending + processing == pending;
      assert RecoverEffect(db, k) == (Del(paused, k.shutdown).0, 0);
    } else {
      var (d1, pushed) := RPush(paused, k.pending, processing);
      assert ListAt(d1, k.pending) == Some(pending + processing);
      assert ListAt(d1, k.processing) == Some(processing);
      var (d2, n) := Del(d1, k.processing);
      assert n == 1;
      assert RecoverScript(paused, k.processing, k.pending) == (d2, 1);
      assert RecoverEffect(db, k) == (Del(d2, k.shutdown).0, 1);
    }
  }

  /** Nothing is lost or duplicated: the messages in pending and processing
      together are the same before and after recovery. */
  lemma RecoverConserves(db: DB, k: Keys)
    requires Distinct(k)
    requires ListAt(db, k.pending).Some? && ListAt(db, k.processing).Some?
    ensures var d := RecoverEffect(db, k).0;
            ListAt(d, k.pending).Some? && ListAt(d, k.processing).Some?
            && multiset(ListAt(d, k.pending).value) + multiset(ListAt(d, k.processing).value)
               == multiset(ListAt(db, k.pending).value) + multiset(ListAt(db, k.processing).value)
  {
    RecoverMovesProcessing(db, k);
  }

  /** With a pending key of the wrong type the script fails: the processing
      list stays where it is, the reply is 0, and the flag is still cleared. */
  lemma RecoverWrongPending(db: DB, k: Keys)
    requires Distinct(k)
    requires ListAt(db, k.pending).None?
    ensures var (d, res) := RecoverEffect(db, k);
            && res == 0 && !Truthy(d, k.shutdown)
            && SameElsewhere(db, d, {k.shutdown})
  {
    var paused := Set(db, k.shutdown, "1");
    assert ListAt(paused, k.pending) == ListAt(db, k.pending);
  }

  // ------------------------------------------------------------ the waiting

  /** Some subscriber's heartbeat reaches `t` or later. */
  predicate LiveAt(db: DB, k: Keys, t: int) {
    ZCountFrom(db, k.subscribers, t).GetOr(0) > 0
  }

  /** The latest expiry in the registry (0 for an empty one). */
  ghost function Horizon(z: map<Id, int>): (h: int)
    ensures forall id :: id in z ==> z[id] <= h
    decreases |z|
  {
    if z == map[] then 0
    else
      var id :| id in z;
      var rest := z - {id};
      assert rest.Keys == z.Keys - {id};
      assert forall x :: x in z && x != id ==> x in rest && rest[x] == z[x];
      var h := Horizon(rest);
      if z[id] > h then z[id] else h
  }

  lemma LiveBeforeHorizon(db: DB, k: Keys, t: int)
    requires LiveAt(db, k, t)
    ensures ZSetAt(db, k.subscribers).Some? && t <= Horizon(ZSetAt(db, k.subscribers).value)
  {
    var z := ZSetAt(db, k.subscribers).value;
    assert AtOrAbove(z, t) != {};
    var id :| id in AtOrAbove(z, t);
  }

  /** subscriberSize is positive exactly when some subscriber is live. */
  lemma SizeMeansLive(q: MessageQueue, t: int)
    requires q.Valid() && q.Configured()
    ensures q.SubscriberSize(t).GetOr(0) > 0 <==> LiveAt(q.redis.data, q.QueueKeys(), t)
  {
  }

  /** A whole number of sleeps is a multiple of WaitSeconds. */
  lemma {:induction false} WholeSleeps(sleeps: nat)
    ensures (sleeps * WaitSeconds) % WaitSeconds == 0
  {
    if sleeps > 0 {
      WholeSleeps(sleeps - 1);
      assert sleeps * WaitSeconds == (sleeps - 1) * WaitSeconds + WaitSeconds;
    }
  }

  /** How reQueueAll's wait ends: it looked at the registry every
      WaitSeconds from `now` on and stopped at the first look, `later`, that
      found no live subscriber. */
  ghost predicate WaitedUntil(db: DB, k: Keys, now: int, later: int) {
    && later >= now
    && (later - now) % WaitSeconds == 0
    && !LiveAt(db, k, later)
    && (later > now ==> LiveAt(db, k, later - WaitSeconds))
  }

  class Publisher {
    const queue: MessageQueue

    constructor (redis: Redis, processId: Id)
      ensures fresh(queue) && queue.Valid() && !queue.Configured()
      ensures queue.redis == redis && queue.processId == processId
    {
      queue := new MessageQueue(redis, processId);
    }

    /** pubMultiple: the messages are pushed chunk by chunk and the replies
        of all pipelines are returned in order. */
    method PubMultiple(messages: seq<Msg>) returns (r: Result<seq<Option<nat>>>)
      requires queue.Valid()
      modifies queue.redis
      ensures !queue.Configured() ==> r == Err(BadMethodCall) && queue.redis.data == old(queue.redis.data)
      ensures queue.Configured() ==>
                var (d, replies) := PushAll(old(queue.redis.data), queue.QueueKeys().pending, messages);
                r == Ok(replies) && queue.redis.data == d
    {
      if queue.CheckName().Fail? {
        return Err(BadMethodCall);
      }
      var key := queue.pendingQueue.value;
      ghost var db0 := queue.redis.data;
      var results: seq<Option<nat>> := [];
      var batches := Chunks(messages, BatchSize);
      ghost var done: seq<Msg> := [];
      for b := 0 to |batches|
        invariant done == Flatten(batches[..b])
        invariant (queue.redis.data, results) == PushAll(db0, key, done)
      {
        var batch := batches[b];
        var replies := Pipeline(key, batch);
        PushAllConcat(db0, key, done, batch);
        results := results + replies;
        assert batches[..b + 1] == batches[..b] + [batch];
        FlattenSnoc(batches[..b], batch);
        done := done + batch;
      }
      assert batches[..|batches|] == batches;
      r := Ok(results);
    }

    /** One pipeline of pubMultiple: an LPUSH per message, the replies
        collected in order. */
    method Pipeline(key: Key, batch: seq<Msg>) returns (replies: seq<Option<nat>>)
      modifies queue.redis
      ensures (queue.redis.data, replies) == PushAll(old(queue.redis.data), key, batch)
    {
      replies := [];
      for i := 0 to |batch|
        invariant (queue.redis.data, replies) == PushAll(old(queue.redis.data), key, batch[..i])
      {
        assert batch[..i + 1][..i] == batch[..i];
        var (d, reply) := LPush(queue.redis.data, key, batch[i]);
        queue.redis.data := d;
        replies := replies + [reply];
      }
      assert batch[..|batch|] == batch;
    }

    /** pub */
    method Pub(m: Msg) returns (r: Result<nat>)
      requires queue.Valid()
      modifies queue.redis
      ensures !queue.Configured() ==> r == Err(BadMethodCall) && queue.redis.data == old(queue.redis.data)
      ensures queue.Configured() ==>
                var (d, n) := PubEffect(old(queue.redis.data), queue.QueueKeys(), m);
                r == Ok(n) && queue.redis.data == d
    {
      if queue.CheckName().Fail? {
        return Err(BadMethodCall);
      }
      var (d, n) := LPush(queue.redis.data, queue.pendingQueue.value, m);
      queue.redis.data := d;
      r := Ok(n.GetOr(0));
    }

    /** pause: SET the flag; the client replies true. */
    method Pause() returns (r: Result<bool>)
      requires queue.Valid()
      modifies queue.redis
      ensures !queue.Configured() ==> r == Err(BadMethodCall) && queue.redis.data == old(queue.redis.data)
      ensures queue.Configured() ==>
                && r == Ok(true)
                && queue.redis.data == Set(old(queue.redis.data), queue.QueueKeys().shutdown, "1")
                && queue.Paused() == Ok(true)
    {
      if queue.CheckName().Fail? {
        return Err(BadMethodCall);
      }
      queue.redis.data := Set(queue.redis.data, queue.shutdownKey.value, "1");
      r := Ok(true);
    }

    /** resume: DEL the flag, true exactly when it existed. */
    method Resume() returns (r: Result<bool>)
      requires queue.Valid()
      modifies queue.redis
      ensures !queue.Configured() ==> r == Err(BadMethodCall) && queue.redis.data == old(queue.redis.data)
      ensures queue.Configured() ==>
                var key := queue.QueueKeys().shutdown;
                && r == Ok(key in old(queue.redis.data))
                && queue.redis.data == Del(old(queue.redis.data), key).0
                && queue.Paused() == Ok(false)
    {
      if queue.CheckName().Fail? {
        return Err(BadMethodCall);
      }
      var (d, n) := Del(queue.redis.data, queue.shutdownKey.value);
      queue.redis.data := d;
      r := Ok(n > 0);
    }

    /** The wait of reQueueAll: look at the registry, and sleep for
        WaitSeconds while some subscriber is live. It only reads the store. */
    method WaitUntilIdle(now: int) returns (later: int)
      requires queue.Valid() && queue.Configured()
      ensures WaitedUntil(queue.redis.data, queue.QueueKeys(), now, later)
    {
      ghost var k, db := queue.QueueKeys(), queue.redis.data;
      ghost var sleeps: nat := 0;
      later := now;
      var busy := queue.SubscriberSize(later).GetOr(0) > 0;
      SizeMeansLive(queue, later);
      while busy
        invariant later == now + sleeps * WaitSeconds
        invariant busy <==> LiveAt(db, k, later)
        invariant later > now ==> LiveAt(db, k, later - WaitSeconds)
        decreases Horizon(ZSetAt(db, k.subscribers).GetOr(map[])) - later
      {
        LiveBeforeHorizon(db, k, later);
        later, sleeps := later + WaitSeconds, sleeps + 1;
        busy := queue.SubscriberSize(later).GetOr(0) > 0;
        SizeMeansLive(queue, later);
      }
      WholeSleeps(sleeps);
    }

    /** reQueueAll: pause, wait until no subscriber is alive (the clock moves
        only by the sleeps), run the recovery script if the processing list is
        non-empty, resume. */
    method ReQueueAll(now: int) returns (r: Result<nat>, later: int)
      requires queue.Valid()
      modifies queue.redis
      ensures !queue.Configured() ==>
                r == Err(BadMethodCall) && later == now && queue.redis.data == old(queue.redis.data)
      ensures queue.Configured() ==>
                var k := queue.QueueKeys();
                var (d, res) := RecoverEffect(old(queue.redis.data), k);
                && r == Ok(res) && queue.redis.data == d
                && WaitedUntil(old(queue.redis.data), k, now, later)
    {
      var p := Pause();
      if p.Err? {
        return Err(p.error), now;
      }
      ghost var k := queue.QueueKeys();
      DeriveKeysDistinct(queue.name.value);
      ghost var db0 := old(queue.redis.data);
      assert ZSetAt(queue.redis.data, k.subscribers) == ZSetAt(db0, k.subscribers);
      later := WaitUntilIdle(now);
      assert LiveAt(queue.redis.data, k, later) == LiveAt(db0, k, later);
      assert LiveAt(queue.redis.data, k, later - WaitSeconds) == LiveAt(db0, k, later - WaitSeconds);

      var result := 0;
      if queue.ProcessingSize().GetOr(0) > 0 {
        var (d, n) := RecoverScript(queue.redis.data, queue.processingQueue.value, queue.pendingQueue.value);
        queue.redis.data := d;
        result := n;
      }
      var _ := Resume();
      r := Ok(result);
    }
  }
}
