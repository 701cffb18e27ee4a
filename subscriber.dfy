/** The consuming side of the queue (class Subscriber): a subscriber renews
    its heartbeat in the registry and moves the oldest pending message onto
    the head of the processing list; it acknowledges a message by removing
    it from the processing list, or hands it back to pending. */
module Subscribing {

  import opened Store
  import opened Handle

  /** Seconds a blocking SUB may wait for a message, until changed. */
  const DefaultConnectionTimeout: int := 5

  // ------------------------------------------------------------ delivering

  /** register: ZADD the subscriber's id with an expiry SubscriberTimeout
      seconds from `now`. */
  function Heartbeat(db: DB, k: Keys, id: Id, now: int): DB {
    ZAdd(db, k.subscribers, now + SubscriberTimeout, id)
  }

  /** sub on a configured handle: nothing while the queue is paused;
      otherwise the heartbeat, then BRPOPLPUSH from pending to processing.
      `None` is the client's false: an empty pending list (the blocking
      wait ran out) or a list of the wrong type. */
  function SubEffect(db: DB, k: Keys, id: Id, now: int): (DB, Option<Msg>) {
    if Truthy(db, k.shutdown) then (db, None)
    else RPopLPush(Heartbeat(db, k, id, now), k.pending, k.processing)
  }

  /** While the pause flag is set a subscriber receives nothing and changes
      nothing, not even its heartbeat. */
  lemma SubWhilePaused(db: DB, k: Keys, id: Id, now: int)
    requires Truthy(db, k.shutdown)
    ensures SubEffect(db, k, id, now) == (db, None)
  {
  }

  /** Outside a pause, SUB renews the subscriber's heartbeat, which then
      counts it as live until SubscriberTimeout seconds after `now`. */
  lemma SubRenewsHeartbeat(db: DB, k: Keys, id: Id, now: int)
    requires Distinct(k) && !Truthy(db, k.shutdown)
    requires ZSetAt(db, k.subscribers).Some?
    ensures var d := SubEffect(db, k, id, now).0;
            && ZSetAt(d, k.subscribers) == Some(ZSetAt(db, k.subscribers).value[id := now + SubscriberTimeout])
            && id in Live(ZSetAt(d, k.subscribers).value, now + SubscriberTimeout)
  {
    var h := Heartbeat(db, k, id, now);
    Untouched(db, h, {k.subscribers}, k.pending);
    Untouched(db, h, {k.subscribers}, k.processing);
    var d := SubEffect(db, k, id, now).0;
    if ListAt(h, k.pending).Some? && ListAt(h, k.pending).value != [] && ListAt(h, k.processing).Some? {
      Untouched(h, d, {k.pending, k.processing}, k.subscribers);
    }
  }

  /** Outside a pause, SUB takes the message at the tail of pending (the
      oldest one) and puts it on the head of processing, or returns false
      when pending is empty. Apart from the heartbeat nothing else changes,
      and no message is lost or duplicated. */
  lemma SubDelivers(db: DB, k: Keys, id: Id, now: int)
    requires Distinct(k) && !Truthy(db, k.shutdown)
    requires ListAt(db, k.pending).Some? && ListAt(db, k.processing).Some?
    ensures var (d, m) := SubEffect(db, k, id, now);
            var pending, processing := ListAt(db, k.pending).value, ListAt(db, k.processing).value;
            && (pending == [] ==>
                  && m == None
                  && ListAt(d, k.pending) == Some(pending) && ListAt(d, k.processing) == Some(processing))
            && (pending != [] ==>
                  && m == Some(pending[|pending| - 1])
                  && ListAt(d, k.pending) == Some(pending[..|pending| - 1])
                  && ListAt(d, k.processing) == Some([pending[|pending| - 1]] + processing))
            && multiset(ListAt(d, k.pending).value) + multiset(ListAt(d, k.processing).value)
               == multiset(pending) + multiset(processing)
            && !Truthy(d, k.shutdown)
            && SameElsewhere(db, d, {k.pending, k.processing, k.subscribers})
  {
    var pending, processing := ListAt(db, k.pending).value, ListAt(db, k.processing).value;
    var h := Heartbeat(db, k, id, now);
    Untouched(db, h, {k.subscribers}, k.pending);
    Untouched(db, h, {k.subscribers}, k.processing);
    Untouched(db, h, {k.subscribers}, k.shutdown);
    var d := SubEffect(db, k, id, now).0;
    if pending != [] {
      Untouched(h, d, {k.pending, k.processing}, k.shutdown);
      assert pending == pending[..|pending| - 1] + [pending[|pending| - 1]];
    }
  }

  /** With a pending list of the wrong type SUB returns false; only the
      heartbeat was written. */
  lemma SubWrongPending(db: DB, k: Keys, id: Id, now: int)
    requires Distinct(k) && !Truthy(db, k.shutdown)
    requires ListAt(db, k.pending).None?
    ensures var (d, m) := SubEffect(db, k, id, now);
            m == None && d == Heartbeat(db, k, id, now) && SameElsewhere(db, d, {k.subscribers})
  {
    Untouched(db, Heartbeat(db, k, id, now), {k.subscribers}, k.pending);
  }

  // -------------------------------------------------------- acknowledging

  /** ack on a configured handle: LREM with count -1 on processing, which
      removes the occurrence nearest the tail; false becomes 0. */
  function AckEffect(db: DB, k: Keys, m: Msg): (DB, nat) {
    var (d, n) := LRemFromTail(db, k.processing, m);
    (d, n.GetOr(0))
  }

  /** Acknowledging a message that is being processed removes exactly one
      copy of it, the one delivered first (nearest the tail), and replies 1;
      a message that is not there is answered with 0 and nothing changes. */
  lemma AckRemovesOne(db: DB, k: Keys, m: Msg)
    ensures var (d, n) := AckEffect(db, k, m);
            && n <= 1
            && (n == 0 <==> d == db && (ListAt(db, k.processing).None? || m !in ListAt(db, k.processing).value))
            && (n == 1 ==>
                  var processing := ListAt(db, k.processing).value;
                  && ListAt(d, k.processing) == Some(RemoveLast(processing, m))
                  && multiset(RemoveLast(processing, m)) == multiset(processing) - multiset{m}
                  && m !in processing[LastIndex(processing, m) + 1..]
                  && SameElsewhere(db, d, {k.processing}))
  {
    match ListAt(db, k.processing)
    case None =>
    case Some(processing) =>
      if m in processing {
        RemoveLastRemovesOne(processing, m);
      }
  }

  /** ack does not look at the pause flag: setting the flag to any value
      changes neither the reply nor what happens to the processing list. */
  lemma AckIgnoresPause(db: DB, k: Keys, m: Msg, flag: string)
    requires Distinct(k)
    ensures var paused := Set(db, k.shutdown, flag);
            && AckEffect(paused, k, m).1 == AckEffect(db, k, m).1
            && ListAt(AckEffect(paused, k, m).0, k.processing) == ListAt(AckEffect(db, k, m).0, k.processing)
  {
    var paused := Set(db, k.shutdown, flag);
    Untouched(db, paused, {k.shutdown}, k.processing);
  }

  /** reQueue on a configured handle: acknowledge, and when a copy was
      removed LPUSH the message back onto pending and reply the new length
      of pending; otherwise reply 0. */
  function ReQueueEffect(db: DB, k: Keys, m: Msg): (DB, nat) {
    var (d, n) := AckEffect(db, k, m);
    if n > 0 then
      var (d2, c) := LPush(d, k.pending, m);
      (d2, c.GetOr(0))
    else (d, 0)
  }

  /** Requeueing moves one copy of the message from processing to the head
      of pending, the end that SUB serves last; the reply is the new length
      of pending, and the messages of both lists together are the same. A
      message that is not being processed changes nothing and gives 0. */
  lemma ReQueueMoves(db: DB, k: Keys, m: Msg)
    requires Distinct(k)
    requires ListAt(db, k.pending).Some? && ListAt(db, k.processing).Some?
    ensures var (d, n) := ReQueueEffect(db, k, m);
            var pending, processing := ListAt(db, k.pending).value, ListAt(db, k.processing).value;
            && (m !in processing ==> d == db && n == 0)
            && (m in processing ==>
                  && ListAt(d, k.pending) == Some([m] + pending)
                  && ListAt(d, k.processing) == Some(RemoveLast(processing, m))
                  && n == |pending| + 1
                  && SameElsewhere(db, d, {k.pending, k.processing}))
            && ListAt(d, k.pending).Some? && ListAt(d, k.processing).Some?
            && multiset(ListAt(d, k.pending).value) + multiset(ListAt(d, k.processing).value)
               == multiset(pending) + multiset(processing)
  {
    var pending, processing := ListAt(db, k.pending).value, ListAt(db, k.processing).value;
    if m in processing {
      var d1 := AckEffect(db, k, m).0;
      Untouched(db, d1, {k.processing}, k.pending);
      var d2 := LPush(d1, k.pending, m).0;
      Untouched(d1, d2, {k.pending}, k.processing);
      MoveKeepsMessages(pending, processing, m);
    }
  }

  /** Moving one copy of `m` from processing to pending keeps the messages
      of both lists together. */
  lemma MoveKeepsMessages(pending: seq<Msg>, processing: seq<Msg>, m: Msg)
    requires m in processing
    ensures multiset([m] + pending) + multiset(RemoveLast(processing, m))
            == multiset(pending) + multiset(processing)
  {
    RemoveLastRemovesOne(processing, m);
    assert multiset([m] + pending) == multiset{m} + multiset(pending);
  }

  /** When the pending key holds a value of another type, reQueue still
      removes the message from processing but cannot push it back: it
      replies 0 and the message has left both lists. */
  lemma ReQueueWrongPendingDrops(db: DB, k: Keys, m: Msg)
    requires Distinct(k)
    requires ListAt(db, k.pending).None? && ListAt(db, k.processing).Some?
    requires m in ListAt(db, k.processing).value
    ensures var (d, n) := ReQueueEffect(db, k, m);
            && n == 0
            && ListAt(d, k.processing) == Some(RemoveLast(ListAt(db, k.processing).value, m))
            && ListAt(d, k.pending).None?
  {
    var d1 := AckEffect(db, k, m).0;
    Untouched(db, d1, {k.processing}, k.pending);
  }

  class Subscriber {
    const queue: MessageQueue
    var connectionTimeout: int

    constructor (redis: Redis, processId: Id)
      ensures fresh(queue) && queue.Valid() && !queue.Configured()
      ensures queue.redis == redis && queue.processId == processId
      ensures connectionTimeout == DefaultConnectionTimeout
    {
      queue := new MessageQueue(redis, processId);
      connectionTimeout := DefaultConnectionTimeout;
    }

    /** setConnectionTimeout: a timeout below one second is refused and the
        old one kept. */
    method SetConnectionTimeout(t: int) returns (o: Outcome)
      modifies this
      ensures t < 1 ==> o == Fail(InvalidArgument) && connectionTimeout == old(connectionTimeout)
      ensures t >= 1 ==> o == Pass && connectionTimeout == t
    {
      if t < 1 {
        return Fail(InvalidArgument);
      }
      connectionTimeout := t;
      o := Pass;
    }

    /** sub */
    method Sub(now: int) returns (r: Result<Option<Msg>>)
      requires queue.Valid()
      modifies queue.redis
      ensures !queue.Configured() ==> r == Err(BadMethodCall) && queue.redis.data == old(queue.redis.data)
      ensures queue.Configured() ==>
                var (d, m) := SubEffect(old(queue.redis.data), queue.QueueKeys(), queue.processId, now);
                r == Ok(m) && queue.redis.data == d
    {
      var paused := queue.Paused();
      if paused.Err? {
        return Err(paused.error);
      }
      if paused.value {
        return Ok(None);
      }
      Register(now);
      var (d, m) := RPopLPush(queue.redis.data, queue.pendingQueue.value, queue.processingQueue.value);
      queue.redis.data := d;
      r := Ok(m);
    }

    /** register */
    method Register(now: int)
      requires queue.Valid() && queue.Configured()
      modifies queue.redis
      ensures queue.redis.data == Heartbeat(old(queue.redis.data), queue.QueueKeys(), queue.processId, now)
    {
      queue.redis.data := ZAdd(queue.redis.data, queue.subscribers.value, now + SubscriberTimeout, queue.processId);
    }

    /** ack */
    method Ack(m: Msg) returns (r: Result<nat>)
      requires queue.Valid()
      modifies queue.redis
      ensures !queue.Configured() ==> r == Err(BadMethodCall) && queue.redis.data == old(queue.redis.data)
      ensures queue.Configured() ==>
                var (d, n) := AckEffect(old(queue.redis.data), queue.QueueKeys(), m);
                r == Ok(n) && queue.redis.data == d
    {
      if queue.CheckName().Fail? {
        return Err(BadMethodCall);
      }
      var (d, n) := LRemFromTail(queue.redis.data, queue.processingQueue.value, m);
      queue.redis.data := d;
      r := Ok(n.GetOr(0));
    }

    /** reQueue */
    method ReQueue(m: Msg) returns (r: Result<nat>)
      requires queue.Valid()
      modifies queue.redis
      ensures !queue.Configured() ==> r == Err(BadMethodCall) && queue.redis.data == old(queue.redis.data)
      ensures queue.Configured() ==>
                var (d, n) := ReQueueEffect(old(queue.redis.data), queue.QueueKeys(), m);
                r == Ok(n) && queue.redis.data == d
    {
      var acked := Ack(m);
      if acked.Err? {
        return Err(acked.error);
      }
      if acked.value > 0 {
        var (d, c) := LPush(queue.redis.data, queue.pendingQueue.value, m);
        queue.redis.data := d;
        return Ok(c.GetOr(0));
      }
      r := Ok(0);
    }
  }
}
