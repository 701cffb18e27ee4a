/** The queue handle shared by publishers and subscribers (class MessageQueue):
    it binds a trimmed queue name to four keys of the store, checks that the
    keys it will use as lists and as a sorted set hold nothing of another
    type, prunes the subscriber registry, and answers size and pause queries. */
module Handle {

  import opened Store

  /** The PHP namespace `Queue\MessageQueue` with its backslash turned into a colon. */
  const Namespace: string := "Queue:MessageQueue"

  /** Seconds a subscriber's heartbeat stays valid. */
  const SubscriberTimeout: int := 60

  /** The exceptions the classes throw. */
  datatype Error = BadMethodCall | UnexpectedValue | InvalidArgument

  /** What a `void` method that may throw ends with. */
  datatype Outcome = Pass | Fail(error: Error)

  /** What a method that returns a value or throws ends with. */
  datatype Result<T> = Ok(value: T) | Err(error: Error)

  // ------------------------------------------------------------- trimming

  /** The characters PHP's trim strips by default: space, tab, line feed,
      carriage return, NUL and vertical tab. */
  predicate IsBlank(c: char) {
    c == ' ' || c == '\t' || c == '\n' || c == '\r' || c == '\0' || c == '\U{000B}'
  }

  predicate AllBlank(s: string) {
    forall i :: 0 <= i < |s| ==> IsBlank(s[i])
  }

  /** Neither end of `s` is a blank. */
  predicate Tight(s: string) {
    s == [] || (!IsBlank(s[0]) && !IsBlank(s[|s| - 1]))
  }

  function TrimLeft(s: string): (r: string)
    ensures |r| <= |s| && r == s[|s| - |r|..]
    ensures AllBlank(s[..|s| - |r|])
    ensures r != [] ==> !IsBlank(r[0])
    decreases |s|
  {
    if s != [] && IsBlank(s[0]) then TrimLeft(s[1..]) else s
  }

  function TrimRight(s: string): (r: string)
    ensures |r| <= |s| && r == s[..|r|]
    ensures AllBlank(s[|r|..])
    ensures r != [] ==> !IsBlank(r[|r| - 1])
    decreases |s|
  {
    if s != [] && IsBlank(s[|s| - 1]) then TrimRight(s[..|s| - 1]) else s
  }

  function Trim(s: string): (r: string)
    ensures Tight(r)
  {
    TrimRight(TrimLeft(s))
  }

  lemma {:induction false} TrimLeftPadding(pre: string, rest: string)
    requires AllBlank(pre) && (rest == [] || !IsBlank(rest[0]))
    ensures TrimLeft(pre + rest) == rest
    decreases |pre|
  {
    if pre != [] {
      assert (pre + rest)[0] == pre[0];
      assert (pre + rest)[1..] == pre[1..] + rest;
      TrimLeftPadding(pre[1..], rest);
    } else {
      assert pre + rest == rest;
    }
  }

  lemma {:induction false} TrimRightPadding(rest: string, post: string)
    requires AllBlank(post) && (rest == [] || !IsBlank(rest[|rest| - 1]))
    ensures TrimRight(rest + post) == rest
    decreases |post|
  {
    var s := rest + post;
    if post != [] {
      assert s[|s| - 1] == post[|post| - 1];
      assert s[..|s| - 1] == rest + post[..|post| - 1];
      TrimRightPadding(rest, post[..|post| - 1]);
    } else {
      assert s == rest;
    }
  }

  /** Trim removes exactly the blank padding around a string: whatever stands
      between the first and the last non-blank character is kept as it is. */
  lemma TrimStripsPadding(pre: string, core: string, post: string)
    requires AllBlank(pre) && AllBlank(post) && Tight(core)
    ensures Trim(pre + core + post) == core
  {
    if core == [] {
      BlankPaddingTrimsAway(pre, post);
      assert pre + core + post == pre + post;
    } else {
      TrimLeftPadding(pre, core + post);
      assert pre + core + post == pre + (core + post);
      TrimRightPadding(core, post);
    }
  }

  /** A name made only of blanks trims to the empty string. */
  lemma BlankPaddingTrimsAway(pre: string, post: string)
    requires AllBlank(pre) && AllBlank(post)
    ensures Trim(pre + post) == []
  {
    var s := pre + post;
    assert AllBlank(s) by {
      forall i | 0 <= i < |s| ensures IsBlank(s[i]) {
        if i < |pre| { assert s[i] == pre[i]; } else { assert s[i] == post[i - |pre|]; }
      }
    }
    TrimLeftPadding(s, []);
    assert s + [] == s;
  }

  lemma TrimIdempotent(s: string)
    ensures Trim(Trim(s)) == Trim(s)
  {
    TrimStripsPadding([], Trim(s), []);
    assert [] + Trim(s) + [] == Trim(s);
  }

  // -------------------------------------------------------- key derivation

  const Roles: set<string> := {"pending", "processing", "subscribers", "shutdown"}

  /** The store key of one role of the queue called `name`. */
  function KeyFor(name: string, role: string): Key {
    Namespace + ":" + name + ":" + role
  }

  datatype Keys = Keys(pending: Key, processing: Key, subscribers: Key, shutdown: Key)

  function DeriveKeys(name: string): Keys {
    Keys(KeyFor(name, "pending"), KeyFor(name, "processing"),
         KeyFor(name, "subscribers"), KeyFor(name, "shutdown"))
  }

  predicate Distinct(k: Keys) {
    && k.pending != k.processing && k.pending != k.subscribers && k.pending != k.shutdown
    && k.processing != k.subscribers && k.processing != k.shutdown
    && k.subscribers != k.shutdown
  }

  /** Each derived key belongs to exactly one queue name and one role, so two
      queues never share a key and one queue's four keys are pairwise
      distinct. */
  lemma {:induction false} KeyOwnership(n1: string, r1: string, n2: string, r2: string)
    requires r1 in Roles && r2 in Roles
    requires KeyFor(n1, r1) == KeyFor(n2, r2)
    ensures n1 == n2 && r1 == r2
  {
    var s := KeyFor(n1, r1);
    var p1, p2 := Namespace + ":" + n1 + ":", Namespace + ":" + n2 + ":";
    assert s == p1 + r1 == p2 + r2;
    assert s[|s| - 1] == r1[|r1| - 1] == r2[|r2| - 1];
    if r1 != r2 {
      if r1 == "pending" && r2 == "processing" {
        PendingNotProcessing(p1, p2);
      } else if r1 == "processing" && r2 == "pending" {
        PendingNotProcessing(p2, p1);
      }
      assert false;
    }
    assert |n1| == |n2|;
    var b := |Namespace + ":"|;
    assert n1 == s[b..b + |n1|] == n2;
  }

  /** The two list roles end alike ("ing"), but eight characters from the
      end one key has the colon before "pending" and the other an "o". */
  lemma PendingNotProcessing(p1: string, p2: string)
    requires p1 != [] && p1[|p1| - 1] == ':'
    ensures p1 + "pending" != p2 + "processing"
  {
    var a, b := p1 + "pending", p2 + "processing";
    assert a[|a| - 8] == p1[|p1| - 1] == ':';
    assert b[|b| - 8] == "processing"[2] == 'o';
  }

  lemma DeriveKeysDistinct(name: string)
    ensures Distinct(DeriveKeys(name))
  {
    var k := DeriveKeys(name);
    if !Distinct(k) {
      if k.pending == k.processing { KeyOwnership(name, "pending", name, "processing"); }
      if k.pending == k.subscribers { KeyOwnership(name, "pending", name, "subscribers"); }
      if k.pending == k.shutdown { KeyOwnership(name, "pending", name, "shutdown"); }
      if k.processing == k.subscribers { KeyOwnership(name, "processing", name, "subscribers"); }
      if k.processing == k.shutdown { KeyOwnership(name, "processing", name, "shutdown"); }
      if k.subscribers == k.shutdown { KeyOwnership(name, "subscribers", name, "shutdown"); }
    }
  }

  /** The name check of setName: the typed size queries succeed on the
      pending list, the processing list and the subscriber registry. */
  predicate KindsValid(db: DB, k: Keys) {
    ListAt(db, k.pending).Some? && ListAt(db, k.processing).Some? && ZSetAt(db, k.subscribers).Some?
  }

  /** The registry entries whose expiry is `now` or later. */
  function Live(z: map<Id, int>, now: int): (live: map<Id, int>)
    ensures forall id :: id in live <==> id in z && z[id] >= now
    ensures forall id :: id in live ==> live[id] == z[id]
    ensures live.Keys == AtOrAbove(z, now)
  {
    map id | id in z && z[id] >= now :: z[id]
  }

  /** After pruning at `now`, every subscriber left in the registry is counted as live. */
  lemma PrunedRegistryIsLive(z: map<Id, int>, now: int)
    ensures |AtOrAbove(Live(z, now), now)| == |Live(z, now)|
  {
    assert AtOrAbove(Live(z, now), now) == Live(z, now).Keys;
  }

  /** Pruning the registry at `now - 1` leaves exactly its live entries. */
  lemma PruneKeepsLive(db: DB, key: Key, now: int)
    requires ZSetAt(db, key).Some?
    ensures ZSetAt(ZRemUpTo(db, key, now - 1).0, key) == Some(Live(ZSetAt(db, key).value, now))
    ensures SameElsewhere(db, ZRemUpTo(db, key, now - 1).0, {key})
  {
    var z, z' := ZSetAt(db, key).value, ZSetAt(ZRemUpTo(db, key, now - 1).0, key).value;
    assert z' == Live(z, now);
  }

  class MessageQueue {
    const redis: Redis
    const processId: Id
    var name: Option<string>
    var pendingQueue: Option<Key>
    var processingQueue: Option<Key>
    var subscribers: Option<Key>
    var shutdownKey: Option<Key>

    /** The four keys are unset together, or all derived from the name. */
    ghost predicate Valid()
      reads this
    {
      || (pendingQueue.None? && processingQueue.None? && subscribers.None? && shutdownKey.None?)
      || (&& name.Some?
          && pendingQueue == Some(KeyFor(name.value, "pending"))
          && processingQueue == Some(KeyFor(name.value, "processing"))
          && subscribers == Some(KeyFor(name.value, "subscribers"))
          && shutdownKey == Some(KeyFor(name.value, "shutdown")))
    }

    /** A handle is configured exactly when its pending key is set. */
    predicate Configured()
      reads this
    {
      pendingQueue.Some?
    }

    function QueueKeys(): (k: Keys)
      requires Valid() && Configured()
      reads this
      ensures k == DeriveKeys(name.value)
    {
      Keys(pendingQueue.value, processingQueue.value, subscribers.value, shutdownKey.value)
    }

    constructor (redis: Redis, processId: Id)
      ensures Valid() && !Configured()
      ensures this.redis == redis && this.processId == processId && name.None?
    {
      this.redis := redis;
      this.processId := processId;
      name := None;
      pendingQueue, processingQueue, subscribers, shutdownKey := None, None, None, None;
    }

    /** checkName */
    function CheckName(): (o: Outcome)
      reads this
      ensures o == Pass <==> Configured()
      ensures o != Pass ==> o == Fail(BadMethodCall)
    {
      if pendingQueue.None? then Fail(BadMethodCall) else Pass
    }

    /** getPendingSize: `None` is PHP's false, for an unset key or a key that is no list. */
    function PendingSize(): (r: Option<nat>)
      reads this, redis
      ensures r.Some? <==> pendingQueue.Some? && ListAt(redis.data, pendingQueue.value).Some?
      ensures r.Some? ==> r.value == |ListAt(redis.data, pendingQueue.value).value|
    {
      if pendingQueue.Some? then LLen(redis.data, pendingQueue.value) else None
    }

    /** getProcessingSize */
    function ProcessingSize(): (r: Option<nat>)
      reads this, redis
      ensures r.Some? <==> processingQueue.Some? && ListAt(redis.data, processingQueue.value).Some?
      ensures r.Some? ==> r.value == |ListAt(redis.data, processingQueue.value).value|
    {
      if processingQueue.Some? then LLen(redis.data, processingQueue.value) else None
    }

    /** getSubscriberSize: the registry entries whose expiry is `now` or later. */
    function SubscriberSize(now: int): (r: Option<nat>)
      reads this, redis
      ensures r.Some? <==> subscribers.Some? && ZSetAt(redis.data, subscribers.value).Some?
      ensures r.Some? ==> r.value == |Live(ZSetAt(redis.data, subscribers.value).value, now)|
    {
      if subscribers.Some? then
        ZCountFrom(redis.data, subscribers.value, now)
      else None
    }

    /** paused */
    function Paused(): (r: Result<bool>)
      requires Valid()
      reads this, redis
      ensures r == Err(BadMethodCall) <==> !Configured()
      ensures Configured() ==> r == Ok(Truthy(redis.data, QueueKeys().shutdown))
    {
      match CheckName()
      case Fail(e) => Err(e)
      case Pass => Ok(Truthy(redis.data, shutdownKey.value))
    }

    /** cleanUpSubscribers: removes the entries that expired before `now`. */
    method CleanUpSubscribers(now: int) returns (removed: nat)
      requires subscribers.Some?
      modifies redis
      ensures var (d, n) := ZRemUpTo(old(redis.data), subscribers.value, now - 1);
              redis.data == d && removed == n.GetOr(0)
    {
      var r := ZRemUpTo(redis.data, subscribers.value, now - 1);
      redis.data, removed := r.0, r.1.GetOr(0);
    }

    /** setName: on success the keys are those of the trimmed name and the
        expired subscribers are gone; if any of the three typed queries fails,
        all four keys are unset, the store is untouched and UnexpectedValue is
        thrown. */
    method SetName(n: string, now: int) returns (o: Outcome)
      modifies this, redis
      ensures Valid()
      ensures name == Some(Trim(n))
      ensures var k := DeriveKeys(Trim(n));
              if KindsValid(old(redis.data), k) then
                && o == Pass && Configured() && QueueKeys() == k
                && ZSetAt(redis.data, k.subscribers) == Some(Live(ZSetAt(old(redis.data), k.subscribers).value, now))
                && SameElsewhere(old(redis.data), redis.data, {k.subscribers})
              else
                && o == Fail(UnexpectedValue) && !Configured()
                && processingQueue.None? && subscribers.None? && shutdownKey.None?
                && redis.data == old(redis.data)
    {
      var trimmed := Trim(n);
      name := Some(trimmed);
      pendingQueue := Some(KeyFor(trimmed, "pending"));
      processingQueue := Some(KeyFor(trimmed, "processing"));
      subscribers := Some(KeyFor(trimmed, "subscribers"));
      shutdownKey := Some(KeyFor(trimmed, "shutdown"));

      if PendingSize().None? || ProcessingSize().None? || SubscriberSize(now).None? {
        pendingQueue, processingQueue, shutdownKey, subscribers := None, None, None, None;
        return Fail(UnexpectedValue);
      }

      PruneKeepsLive(redis.data, subscribers.value, now);
      var _ := CleanUpSubscribers(now);
      o := Pass;
    }
  }
}
