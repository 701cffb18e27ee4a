# redisqueue message queue — a Dafny model

This project models the reliable-queue protocol of the PHP `Queue\MessageQueue`
classes. The protocol has three parts:

- A queue handle (`MessageQueue`) binds a trimmed queue name to four keys of a
  Redis server: a pending list, a processing list, a sorted set of subscriber
  heartbeats and a pause flag.
- A `Publisher` pushes messages onto the head of the pending list, one at a
  time or in pipelined chunks of 5000. It pauses and resumes the queue, and
  `reQueueAll` recovers after crashes: it waits until no subscriber is alive,
  then a Lua script appends the whole processing list to the tail of pending.
- A `Subscriber` renews its heartbeat and moves the tail of pending onto the
  head of processing (`BRPOPLPUSH`). It acknowledges a message by removing it
  from processing (`LREM … -1`), or requeues it by acknowledging and pushing it
  back onto pending.

## How the model is built

- `store.dfy` (module `Store`) is an abstract Redis server. It is a class
  `Redis` with one field, a map from key to value. A value is a list, a sorted
  set or a string, and the constructor is the key's type. Every command the
  queue issues is a pure function from the store to the new store and the
  reply. `None` stands for the client's `false`: a WRONGTYPE error or a nil
  reply. A failed command changes nothing. As in Redis, an empty list or an
  empty sorted set is no key at all.
- `handle.dfy` (module `Handle`) holds the class `MessageQueue`. Its fields are
  the source's fields: the name, the four keys (each `None` for PHP's null) and
  the process id. It also holds key derivation, PHP's `trim`, and the size and
  pause queries.
- `publisher.dfy` (module `Publishing`) and `subscriber.dfy` (module
  `Subscribing`) each hold a class with the source's methods.
  - Dafny has no class inheritance without traits. So `Publisher` and
    `Subscriber` each own a `MessageQueue` (`queue`) in place of extending it.
  - Every method changes `queue.redis.data` in place. Its `ensures` ties the
    new store and the reply to a pure effect function of the old store
    (`PubEffect`, `RecoverEffect`, `SubEffect`, `AckEffect`, `ReQueueEffect`).
  - The lemmas state what each effect does to the two lists, the registry and
    the flag.
- `protocol.dfy` (module `Protocol`) chains those effects into whole runs:
  delivery order, where a requeued message goes, and redelivery after a crash.

Time (`time()`) is a parameter `now` of every operation that reads the clock.
The random process id is a constructor parameter.

PHP's non-strict mode turns the client's `false` into `0` wherever a method is
declared to return `int`. So `pub`, `ack`, `reQueue` and `reQueueAll` reply 0
when a command fails with WRONGTYPE, and the model does the same.

### Behaviour worth knowing

- **Requeue order.** `reQueue` pushes the message onto the head of pending
  with `LPUSH` (Subscriber.php:65), and `sub` pops from the tail
  (Subscriber.php:50). So a requeued message goes to the back of the line:
  after pub A, pub B, sub → A and reQueue(A), the next sub returns B
  (`Protocol.RequeueScenario`).
- **What `reQueue` returns.** It returns `LPUSH`'s reply, the new length of
  pending (Subscriber.php:65).
- **What `reQueueAll` returns.** It returns the reply of the script's `DEL` on
  the processing list: 1 when something moved and 0 otherwise
  (Publisher.php:76-78).
- **Timeouts.** `setConnectionTimeout` rejects a timeout below one second
  with `InvalidArgumentException` and keeps the old value
  (Subscriber.php:31-32).
- **Which copy `ack` removes.** Deliveries go onto the head of processing
  (Subscriber.php:50), and `LREM … -1` scans from the tail
  (Subscriber.php:81). So `ack` removes the copy delivered first
  (`Subscribing.AckRemovesOne`).
- **Live subscribers.** The registry counts expiries `>= now`
  (`ZCOUNT key now +inf`, MessageQueue.php:95) and prunes expiries
  `<= now - 1` (MessageQueue.php:102). So an entry that expires exactly at
  `now` is both kept and counted.
- **The message being processed.** `ack` and `reQueue` take the message as an
  argument (Subscriber.php:63,78); no handle remembers the last delivery.
- **Unconfigured size queries.** The three size getters return `false` when
  the queue has no name (MessageQueue.php:71-99).
- **`reQueue` with a damaged pending key.** If the pending key holds another
  type, `reQueue` first removes the message from processing and then fails to
  push it (Subscriber.php:64-65). The message leaves both lists
  (`Subscribing.ReQueueWrongPendingDrops`).

## Model

| member | source | states |
|---|---|---|
| Store.LLen | lib/RedisQueue/MessageQueue/MessageQueue.php:73 | LLEN replies the list's length, or false for a key of another type |
| Store.LPush | lib/RedisQueue/MessageQueue/Publisher.php:56 | LPUSH prepends the message and replies the new length; a key of another type is refused and nothing changes |
| Store.RPush | lib/RedisQueue/MessageQueue/Publisher.php:75 | RPUSH appends the values in order at the tail, and touches no other key |
| Store.RPopLPush | lib/RedisQueue/MessageQueue/Subscriber.php:50 | BRPOPLPUSH moves the last element of the source onto the head of the destination, and touches no other key; an empty or mistyped source changes nothing |
| Store.LastIndex | lib/RedisQueue/MessageQueue/Subscriber.php:81 | the found position holds the message, and no later position does |
| Store.RemoveLastRemovesOne | lib/RedisQueue/MessageQueue/Subscriber.php:81 | LREM with count -1 removes exactly one copy (length minus one, multiset minus one): the one nearest the tail |
| Store.LRemFromTail | lib/RedisQueue/MessageQueue/Subscriber.php:81 | replies 1 and removes the tail-most copy when the message is present; replies 0 and changes nothing when it is absent |
| Store.ZAdd | lib/RedisQueue/MessageQueue/Subscriber.php:54 | ZADD sets one member's score and leaves the other members and keys alone |
| Store.ZCountFrom | lib/RedisQueue/MessageQueue/MessageQueue.php:95 | ZCOUNT min +inf counts the members scored at least min |
| Store.ZRemUpTo | lib/RedisQueue/MessageQueue/MessageQueue.php:102 | ZREMRANGEBYSCORE -inf max keeps exactly the members scored above max, with unchanged scores, and replies how many went |
| Store.Set | lib/RedisQueue/MessageQueue/Publisher.php:94 | SET stores the string whatever the key held before, and touches no other key |
| Store.Del | lib/RedisQueue/MessageQueue/Publisher.php:105 | DEL removes the key and replies 1 exactly when it existed |
| Handle.TrimStripsPadding | lib/RedisQueue/MessageQueue/MessageQueue.php:52 | trim removes exactly the blank padding (space, tab, LF, CR, NUL, VT) and keeps everything between the first and the last non-blank character |
| Handle.TrimIdempotent | lib/RedisQueue/MessageQueue/MessageQueue.php:52 | a trimmed name trims to itself |
| Handle.KeyOwnership | lib/RedisQueue/MessageQueue/MessageQueue.php:53-57 | a derived key determines both the queue name and the role, so two queues never share a key |
| Handle.DeriveKeysDistinct | lib/RedisQueue/MessageQueue/MessageQueue.php:53-57 | the pending, processing, subscriber and shutdown keys of one name are pairwise distinct |
| Handle.PruneKeepsLive | lib/RedisQueue/MessageQueue/MessageQueue.php:101-103 | pruning the registry at now - 1 leaves exactly the entries with expiry now or later, and no other key changes |
| Handle.PrunedRegistryIsLive | lib/RedisQueue/MessageQueue/MessageQueue.php:95-102 | after pruning at now, every entry left is counted as a live subscriber |
| Handle.MessageQueue.constructor | lib/RedisQueue/MessageQueue/MessageQueue.php:32-37 | a new handle has no name and no keys, and keeps the store and the process id it was given |
| Handle.MessageQueue.QueueKeys | lib/RedisQueue/MessageQueue/MessageQueue.php:53-57 | the keys of a configured handle are Queue:MessageQueue:name:pending, :processing, :subscribers and :shutdown |
| Handle.MessageQueue.CheckName | lib/RedisQueue/MessageQueue/MessageQueue.php:119-123 | passes exactly when the pending key is set, and otherwise fails with BadMethodCall |
| Handle.MessageQueue.PendingSize | lib/RedisQueue/MessageQueue/MessageQueue.php:71-77 | the pending list's length; false when the key is unset or holds another type |
| Handle.MessageQueue.ProcessingSize | lib/RedisQueue/MessageQueue/MessageQueue.php:82-88 | the processing list's length; false when the key is unset or holds another type |
| Handle.MessageQueue.SubscriberSize | lib/RedisQueue/MessageQueue/MessageQueue.php:93-99 | the number of registry entries whose expiry is now or later; false when the key is unset or holds another type |
| Handle.MessageQueue.Paused | lib/RedisQueue/MessageQueue/MessageQueue.php:110-114 | BadMethodCall exactly when unconfigured; otherwise whether the flag holds a PHP-truthy string |
| Handle.MessageQueue.CleanUpSubscribers | lib/RedisQueue/MessageQueue/MessageQueue.php:101-103 | removes the registry entries that expired before now and replies how many went, with a failed command read as 0 as the `int` return type coerces it |
| Handle.MessageQueue.SetName | lib/RedisQueue/MessageQueue/MessageQueue.php:51-66 | keys of the trimmed name. If all three typed queries succeed, the registry keeps exactly its entries with expiry >= now and nothing else changes. Otherwise all four keys are null, UnexpectedValue is raised and the store is untouched |
| Publishing.Chunks | lib/RedisQueue/MessageQueue/Publisher.php:31 | array_chunk: the chunks concatenate to the input, each holds 1 to size messages, all but the last hold exactly size, and there are ceil(n/size) of them |
| Publishing.ChunksOf12001 | lib/RedisQueue/MessageQueue/Publisher.php:31-32 | 12001 messages split into chunks of 5000, 5000 and 2001 |
| Publishing.PushAllOnList | lib/RedisQueue/MessageQueue/Publisher.php:26-44 | after pushing n messages, pending is reverse(messages) + old pending, reply i is old length + i + 1, and no other key changes |
| Publishing.PushAllConcat | lib/RedisQueue/MessageQueue/Publisher.php:32-41 | pushing chunk after chunk and concatenating the replies is the same as pushing the whole input once |
| Publishing.PushAllWrongType | lib/RedisQueue/MessageQueue/Publisher.php:35-39 | when pending holds another type, every push replies false and nothing changes |
| Publishing.PubEffect | lib/RedisQueue/MessageQueue/Publisher.php:53-57 | pub prepends the message and replies the new length; processing, the registry and the flag are untouched |
| Publishing.RecoverMovesProcessing | lib/RedisQueue/MessageQueue/Publisher.php:65-84 | recovery leaves pending = pending ++ processing and processing empty, clears the flag, and replies 1 if something moved and 0 otherwise |
| Publishing.RecoverConserves | lib/RedisQueue/MessageQueue/Publisher.php:73-78 | recovery keeps the multiset of pending ++ processing: nothing is lost or duplicated |
| Publishing.RecoverWrongPending | lib/RedisQueue/MessageQueue/Publisher.php:73-78 | with a mistyped pending key the script fails: reply 0, processing stays, only the flag changes |
| Publishing.LiveBeforeHorizon | lib/RedisQueue/MessageQueue/Publisher.php:67-70 | while a subscriber is live, the clock has not passed the latest expiry in the registry, so the wait ends |
| Publishing.Publisher.constructor | lib/RedisQueue/MessageQueue/Publisher.php:15-17 | a new publisher has an unconfigured handle on the given store |
| Publishing.Publisher.PubMultiple | lib/RedisQueue/MessageQueue/Publisher.php:26-44 | BadMethodCall before any push when unconfigured; otherwise the store and the replies are those of pushing every message in order |
| Publishing.Publisher.Pipeline | lib/RedisQueue/MessageQueue/Publisher.php:33-39 | one pipeline pushes its chunk in order and collects one reply per message |
| Publishing.Publisher.Pub | lib/RedisQueue/MessageQueue/Publisher.php:53-57 | BadMethodCall before the push when unconfigured; otherwise the effect of PubEffect |
| Publishing.Publisher.Pause | lib/RedisQueue/MessageQueue/Publisher.php:91-95 | sets the flag, after which Paused answers true |
| Publishing.Publisher.Resume | lib/RedisQueue/MessageQueue/Publisher.php:102-106 | deletes the flag, replies whether it existed, after which Paused answers false |
| Publishing.Publisher.WaitUntilIdle | lib/RedisQueue/MessageQueue/Publisher.php:67-70 | looks at the registry every 30 s from `now` on and stops at the first look that finds no live subscriber, the look before it having found one; changes nothing |
| Publishing.Publisher.ReQueueAll | lib/RedisQueue/MessageQueue/Publisher.php:65-84 | pauses, looks at the registry every 30 s until no subscriber is live, moves processing to the tail of pending if non-empty, resumes; the store and reply are those of RecoverEffect |
| Subscribing.SubWhilePaused | lib/RedisQueue/MessageQueue/Subscriber.php:44-46 | while paused, sub returns false and changes nothing, not even the heartbeat |
| Subscribing.SubRenewsHeartbeat | lib/RedisQueue/MessageQueue/Subscriber.php:53-55 | sub sets this process's expiry to now + 60, keeps the other entries, and the process then counts as live until then |
| Subscribing.SubDelivers | lib/RedisQueue/MessageQueue/Subscriber.php:43-51 | sub returns the last message of pending and puts it on the head of processing, or returns false with both lists unchanged when pending is empty; the multiset of pending ++ processing is kept |
| Subscribing.SubWrongPending | lib/RedisQueue/MessageQueue/Subscriber.php:48-50 | with a mistyped pending key sub returns false and only the heartbeat was written |
| Subscribing.AckRemovesOne | lib/RedisQueue/MessageQueue/Subscriber.php:78-82 | ack removes exactly one copy, the one nearest the tail, and replies 1; an absent message replies 0 and changes nothing |
| Subscribing.AckIgnoresPause | lib/RedisQueue/MessageQueue/Subscriber.php:78-82 | ack does not consult the pause flag |
| Subscribing.ReQueueMoves | lib/RedisQueue/MessageQueue/Subscriber.php:63-69 | reQueue moves one copy from processing to the head of pending and replies the new pending length, keeping the multiset of both lists; a message not being processed gives 0 and no change |
| Subscribing.MoveKeepsMessages | lib/RedisQueue/MessageQueue/Subscriber.php:63-69 | moving one copy of a message from processing to pending keeps the multiset of both lists together |
| Subscribing.ReQueueWrongPendingDrops | lib/RedisQueue/MessageQueue/Subscriber.php:63-69 | with a mistyped pending key, reQueue removes the message from processing, cannot push it back, and replies 0 |
| Subscribing.Subscriber.constructor | lib/RedisQueue/MessageQueue/Subscriber.php:20-23 | a new subscriber has an unconfigured handle and a connection timeout of 5 |
| Subscribing.Subscriber.SetConnectionTimeout | lib/RedisQueue/MessageQueue/Subscriber.php:30-36 | a timeout below 1 raises InvalidArgument and keeps the old value; otherwise it is stored |
| Subscribing.Subscriber.Sub | lib/RedisQueue/MessageQueue/Subscriber.php:43-51 | BadMethodCall when unconfigured; otherwise the effect of SubEffect (pause check, heartbeat, pop and push) |
| Subscribing.Subscriber.Register | lib/RedisQueue/MessageQueue/Subscriber.php:53-55 | adds or renews this process's registry entry with expiry now + 60 |
| Subscribing.Subscriber.Ack | lib/RedisQueue/MessageQueue/Subscriber.php:78-82 | BadMethodCall when unconfigured; otherwise the effect of AckEffect |
| Subscribing.Subscriber.ReQueue | lib/RedisQueue/MessageQueue/Subscriber.php:63-69 | BadMethodCall when unconfigured; otherwise ack, then LPUSH only if ack removed a copy |
| Protocol.SubOne | lib/RedisQueue/MessageQueue/Subscriber.php:50 | one sub on an open queue with work pending delivers the tail and keeps the queue open |
| Protocol.DrainLeavesHead | lib/RedisQueue/MessageQueue/Subscriber.php:50 | n subs take the last n messages of pending and leave the rest |
| Protocol.DrainFillsProcessing | lib/RedisQueue/MessageQueue/Subscriber.php:50 | after n subs the taken messages head the processing list in their pending order |
| Protocol.DeliveriesAreReverse | lib/RedisQueue/MessageQueue/Subscriber.php:50 | the replies to draining a list are the list reversed, each wrapped as a delivered message |
| Protocol.DrainRepliesOldestFirst | lib/RedisQueue/MessageQueue/Subscriber.php:50 | n subs reply with the last n messages of pending, tail first |
| Protocol.SubTimesDrains | lib/RedisQueue/MessageQueue/Subscriber.php:50 | the three drain facts together: the replies are the taken tail read from its end, pending keeps its head, processing gains the tail, the queue stays open |
| Protocol.DrainAll | lib/RedisQueue/MessageQueue/Subscriber.php:50 | as many subs as there are pending messages empty pending and reply i is the message i places from its tail |
| Protocol.DrainPublished | lib/RedisQueue/MessageQueue/Publisher.php:26-44 | with the new messages pushed in front of what was waiting, draining delivers the waiting ones oldest first, then the new ones in publication order |
| Protocol.PubOne | lib/RedisQueue/MessageQueue/Publisher.php:56 | pub keeps the queue open and prepends to pending |
| Protocol.PubMultipleOne | lib/RedisQueue/MessageQueue/Publisher.php:26-44 | pubMultiple keeps the queue open and puts reverse(messages) in front of pending |
| Protocol.FifoOrder | lib/RedisQueue/MessageQueue/Publisher.php:26-44 | after pubMultiple, subs deliver what was waiting, oldest first, and then the new messages in publication order |
| Protocol.ThreeInThreeOut | lib/RedisQueue/MessageQueue/Publisher.php:56 | from an empty queue, pub A, B, C then three subs return A, B, C |
| Protocol.ReQueueOne | lib/RedisQueue/MessageQueue/Subscriber.php:65 | a requeue keeps the queue open and puts the message on the head of pending |
| Protocol.RequeueGoesToBack | lib/RedisQueue/MessageQueue/Subscriber.php:63-69 | after a requeue, every message that was waiting is delivered before the requeued one |
| Protocol.RequeueScenario | lib/RedisQueue/MessageQueue/Subscriber.php:63-69 | pub A, pub B, sub → A, reQueue(A) replies 2, then subs return B and then A |
| Protocol.RecoveryRedelivers | lib/RedisQueue/MessageQueue/Publisher.php:73-78 | if n deliveries were never acknowledged, recovery restores pending exactly and n subs redeliver the same messages in the same order |
| Protocol.CrashScenario | lib/RedisQueue/MessageQueue/Publisher.php:65-84 | pub M, sub takes M and the subscriber dies, recovery runs, and the next sub returns M again |

## Left out

- The Redis connection, the phpredis client and network failure. Every
  command is its documented effect on an in-memory store of lists, sorted sets
  and strings. Hashes, sets and other Redis types are not modelled, because the
  queue never creates them. A key of another kind is modelled as a string.
- Byte strings: PHP strings and Redis values are byte strings, so `trim`
  works on bytes and a payload need not be valid UTF-8. The model's messages,
  keys and ids are Dafny strings, sequences of characters. No property here
  depends on the encoding.
- Concurrency: several processes interleaving, and the atomicity of pipelines
  and of the Lua script. Each is modelled by its sequential effect.
- `openssl_random_pseudo_bytes`/`bin2hex` for the process id: the id is a
  constructor parameter. `getProcessID` is the field `processId` itself.
- `time()` and `sleep`: the clock is a parameter.
- `ini_set('default_socket_timeout', -1)` in the subscriber's constructor: it
  is process-wide I/O configuration.
- Subscribing.SubEffect: `BRPOPLPUSH` is modelled without blocking. An empty
  pending list replies false at once, as when the wait runs out. So the
  connection timeout is stored but no contract depends on it.
- Publishing.Publisher.ReQueueAll: while it waits, no other client writes to
  the store. The clock moves exactly 30 seconds per sleep. With no one else
  heartbeating, the wait always ends. In the real system it has no bound.
- Publishing.RecoverScript: Lua's `unpack` limit on the number of values
  (several thousand) is not modelled. A processing list longer than that
  makes the real script fail.
- Publishing.Publisher.PubMultiple: it does not model a chunk that fails part
  way through, or PHP array keys that are not 0..n-1 (`array_chunk` is called
  with keys preserved).
