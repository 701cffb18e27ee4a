/** Runs of the whole protocol: publishers and subscribers sharing one
    configured queue. These lemmas chain the effects of single calls to
    show the delivery order the queue promises, where a requeued message
    goes, and what recovery after a crash gives back. */
module Protocol {

  import opened Store
  import opened Handle
  import opened Publishing
  import opened Subscribing

  /** `n` SUB calls in a row by subscriber `id` at time `now`, with the
      replies in order. */
  function SubTimes(db: DB, k: Keys, id: Id, now: int, n: nat): (r: (DB, seq<Option<Msg>>))
    ensures |r.1| == n
    decreases n
  {
    if n == 0 then (db, [])
    else
      var (d, m) := SubEffect(db, k, id, now);
      var (d', ms) := SubTimes(d, k, id, now, n - 1);
      (d', [m] + ms)
  }

  /** The queue can deliver: its keys are distinct, it is not paused, and
      both lists hold lists. */
  predicate Open(db: DB, k: Keys) {
    Distinct(k) && !Truthy(db, k.shutdown) && ListAt(db, k.pending).Some? && ListAt(db, k.processing).Some?
  }

  /** One SUB on an open queue with something pending takes the message at
      the tail and keeps the queue open. */
  lemma SubOne(db: DB, k: Keys, id: Id, now: int)
    requires Open(db, k) && ListAt(db, k.pending).value != []
    ensures var (d, m) := SubEffect(db, k, id, now);
            var pending, processing := ListAt(db, k.pending).value, ListAt(db, k.processing).value;
            && m == Some(pending[|pending| - 1])
            && ListAt(d, k.pending) == Some(pending[..|pending| - 1])
            && ListAt(d, k.processing) == Some([pending[|pending| - 1]] + processing)
            && Open(d, k)
  {
    SubDelivers(db, k, id, now);
  }

  /** `n` SUBs take the `n` messages at the tail of pending and leave the
      rest; the queue stays open. */
  lemma {:induction false} DrainLeavesHead(db: DB, k: Keys, id: Id, now: int, n: nat)
    requires Open(db, k)
    requires n <= |ListAt(db, k.pending).value|
    ensures var d, pending := SubTimes(db, k, id, now, n).0, ListAt(db, k.pending).value;
            ListAt(d, k.pending) == Some(pending[..|pending| - n]) && Open(d, k)
    decreases n
  {
    var pending := ListAt(db, k.pending).value;
    if n == 0 {
      assert pending[..|pending|] == pending;
    } else {
      SubOne(db, k, id, now);
      var d1 := SubEffect(db, k, id, now).0;
      DrainLeavesHead(d1, k, id, now, n - 1);
      assert SubTimes(db, k, id, now, n).0 == SubTimes(d1, k, id, now, n - 1).0;
      var pending1 := pending[..|pending| - 1];
      assert pending1[..|pending1| - (n - 1)] == pending[..|pending| - n];
    }
  }

  /** The messages `n` SUBs take sit on the processing list in the order
      they sat in pending, in front of what was being processed before. */
  lemma {:induction false} DrainFillsProcessing(db: DB, k: Keys, id: Id, now: int, n: nat)
    requires Open(db, k)
    requires n <= |ListAt(db, k.pending).value|
    ensures var d := SubTimes(db, k, id, now, n).0;
            var pending, processing := ListAt(db, k.pending).value, ListAt(db, k.processing).value;
            ListAt(d, k.processing) == Some(pending[|pending| - n..] + processing)
    decreases n
  {
    var pending, processing := ListAt(db, k.pending).value, ListAt(db, k.processing).value;
    if n == 0 {
      assert pending[|pending|..] + processing == processing;
    } else {
      SubOne(db, k, id, now);
      var d1 := SubEffect(db, k, id, now).0;
      var pending1 := pending[..|pending| - 1];
      assert ListAt(d1, k.pending).value == pending1;
      assert ListAt(d1, k.processing).value == [pending[|pending| - 1]] + processing;
      DrainFillsProcessing(d1, k, id, now, n - 1);
      assert SubTimes(db, k, id, now, n).0 == SubTimes(d1, k, id, now, n - 1).0;
      TakenStep(pending, processing, n);
    }
  }

  /** The replies to SUBs that take all of `s`, tail first. */
  function Deliveries(s: seq<Msg>): (r: seq<Option<Msg>>)
    ensures |r| == |s|
  {
    if s == [] then [] else [Some(s[|s| - 1])] + Deliveries(s[..|s| - 1])
  }

  lemma {:induction false} DeliveriesIndex(s: seq<Msg>, i: nat)
    requires i < |s|
    ensures Deliveries(s)[i] == Some(s[|s| - 1 - i])
    decreases |s|
  {
    if i > 0 {
      DeliveriesIndex(s[..|s| - 1], i - 1);
    }
  }

  /** Reply i to the SUBs that take all of `s` is the message i places from its tail. */
  lemma DeliveriesAll(s: seq<Msg>)
    ensures forall i :: 0 <= i < |s| ==> Deliveries(s)[i] == Some(s[|s| - 1 - i])
  {
    forall i | 0 <= i < |s|
      ensures Deliveries(s)[i] == Some(s[|s| - 1 - i])
    {
      DeliveriesIndex(s, i);
    }
  }

  /** The replies to draining `s` are `s` reversed, each wrapped in `Some`. */
  lemma DeliveriesAreReverse(s: seq<Msg>)
    ensures |Deliveries(s)| == |Reverse(s)|
    ensures forall i :: 0 <= i < |s| ==> Deliveries(s)[i] == Some(Reverse(s)[i])
  {
    forall i | 0 <= i < |s|
      ensures Deliveries(s)[i] == Some(Reverse(s)[i])
    {
      DeliveriesIndex(s, i);
      ReverseIndex(s, i);
    }
  }

  /** `n` SUBs reply with the `n` messages at the tail of pending, oldest
      first. */
  lemma {:induction false} DrainRepliesOldestFirst(db: DB, k: Keys, id: Id, now: int, n: nat)
    requires Open(db, k)
    requires n <= |ListAt(db, k.pending).value|
    ensures var pending := ListAt(db, k.pending).value;
            SubTimes(db, k, id, now, n).1 == Deliveries(pending[|pending| - n..])
    decreases n
  {
    var pending := ListAt(db, k.pending).value;
    if n == 0 {
      assert pending[|pending|..] == [];
    } else {
      SubOne(db, k, id, now);
      var step := SubEffect(db, k, id, now);
      DrainRepliesOldestFirst(step.0, k, id, now, n - 1);
      assert SubTimes(db, k, id, now, n).1 == [step.1] + SubTimes(step.0, k, id, now, n - 1).1;
      DeliveriesStep(pending, n);
    }
  }

  /** Taking `n` messages from the tail is taking the last one, then `n - 1`
      from what is left. */
  lemma DeliveriesStep(pending: seq<Msg>, n: nat)
    requires 0 < n <= |pending|
    ensures var pending1 := pending[..|pending| - 1];
            Deliveries(pending[|pending| - n..])
              == [Some(pending[|pending| - 1])] + Deliveries(pending1[|pending1| - (n - 1)..])
  {
    var pending1 := pending[..|pending| - 1];
    var taken := pending[|pending| - n..];
    assert taken[..|taken| - 1] == pending1[|pending1| - (n - 1)..];
    assert taken[|taken| - 1] == pending[|pending| - 1];
  }

  /** `n` SUBs deliver the `n` messages at the tail of pending, oldest
      first, and leave them on the processing list in the order they sat in
      pending. */
  lemma SubTimesDrains(db: DB, k: Keys, id: Id, now: int, n: nat)
    requires Open(db, k)
    requires n <= |ListAt(db, k.pending).value|
    ensures var (d, ms) := SubTimes(db, k, id, now, n);
            var pending, processing := ListAt(db, k.pending).value, ListAt(db, k.processing).value;
            && ms == Deliveries(pending[|pending| - n..])
            && ListAt(d, k.pending) == Some(pending[..|pending| - n])
            && ListAt(d, k.processing) == Some(pending[|pending| - n..] + processing)
            && Open(d, k)
  {
    DrainLeavesHead(db, k, id, now, n);
    DrainFillsProcessing(db, k, id, now, n);
    DrainRepliesOldestFirst(db, k, id, now, n);
  }

  /** Taking one more message from the tail of pending puts it behind the
      ones taken after it on the processing list. */
  lemma TakenStep(pending: seq<Msg>, processing: seq<Msg>, n: nat)
    requires 0 < n <= |pending|
    ensures var pending1 := pending[..|pending| - 1];
            pending1[|pending1| - (n - 1)..] + ([pending[|pending| - 1]] + processing)
            == pending[|pending| - n..] + processing
  {
    var pending1 := pending[..|pending| - 1];
    var taken1 := pending1[|pending1| - (n - 1)..];
    assert pending[|pending| - n..] == taken1 + [pending[|pending| - 1]];
  }

  /** A publish keeps the queue open and touches only pending. */
  lemma PubOne(db: DB, k: Keys, m: Msg)
    requires Open(db, k)
    ensures var d := PubEffect(db, k, m).0;
            && ListAt(d, k.pending) == Some([m] + ListAt(db, k.pending).value)
            && ListAt(d, k.processing) == ListAt(db, k.processing)
            && Open(d, k)
  {
    var d := PubEffect(db, k, m).0;
    Untouched(db, d, {k.pending}, k.processing);
    Untouched(db, d, {k.pending}, k.shutdown);
  }

  /** pubMultiple keeps the queue open and puts the messages in front of
      pending, the last one first. */
  lemma PubMultipleOne(db: DB, k: Keys, ms: seq<Msg>)
    requires Open(db, k)
    ensures var d := PushAll(db, k.pending, ms).0;
            ListAt(d, k.pending) == Some(Reverse(ms) + ListAt(db, k.pending).value) && Open(d, k)
  {
    var d := PushAll(db, k.pending, ms).0;
    PushAllOnList(db, k.pending, ms);
    Untouched(db, d, {k.pending}, k.processing);
    Untouched(db, d, {k.pending}, k.shutdown);
  }

  /** As many SUBs as there are pending messages deliver all of them,
      oldest first, and leave pending empty. */
  lemma DrainAll(db: DB, k: Keys, id: Id, now: int)
    requires Open(db, k)
    ensures var pending := ListAt(db, k.pending).value;
            var (d, out) := SubTimes(db, k, id, now, |pending|);
            && (forall i :: 0 <= i < |pending| ==> out[i] == Some(pending[|pending| - 1 - i]))
            && ListAt(d, k.pending) == Some([])
  {
    var pending := ListAt(db, k.pending).value;
    DrainLeavesHead(db, k, id, now, |pending|);
    DrainRepliesOldestFirst(db, k, id, now, |pending|);
    assert pending[|pending| - |pending|..] == pending;
    assert pending[..|pending| - |pending|] == [];
    DeliveriesAll(pending);
  }

  /** `n` SUBs on `db`, with n the number of messages in `waiting` and
      `ms`, deliver `waiting` oldest first, then `ms` in order, and empty the
      pending list. */
  ghost predicate DrainsInOrder(db: DB, k: Keys, id: Id, now: int, waiting: seq<Msg>, ms: seq<Msg>) {
    var r := SubTimes(db, k, id, now, |waiting| + |ms|);
    && (forall i :: 0 <= i < |waiting| ==> r.1[i] == Some(waiting[|waiting| - 1 - i]))
    && (forall j :: 0 <= j < |ms| ==> r.1[|waiting| + j] == Some(ms[j]))
    && ListAt(r.0, k.pending) == Some([])
  }

  /** First in, first out: after pubMultiple of `ms`, as many SUBs as there
      are messages deliver everything that was already waiting, oldest
      first, and then `ms` in the order it was published. */
  lemma FifoOrder(db: DB, k: Keys, id: Id, now: int, ms: seq<Msg>)
    requires Open(db, k)
    ensures DrainsInOrder(PushAll(db, k.pending, ms).0, k, id, now, ListAt(db, k.pending).value, ms)
  {
    PubMultipleOne(db, k, ms);
    DrainPublished(PushAll(db, k.pending, ms).0, k, id, now, ListAt(db, k.pending).value, ms);
  }

  /** Draining a pending list that holds `ms` pushed on top of `waiting`. */
  lemma DrainPublished(d1: DB, k: Keys, id: Id, now: int, waiting: seq<Msg>, ms: seq<Msg>)
    requires Open(d1, k) && ListAt(d1, k.pending) == Some(Reverse(ms) + waiting)
    ensures DrainsInOrder(d1, k, id, now, waiting, ms)
  {
    var all := Reverse(ms) + waiting;
    assert |all| == |waiting| + |ms|;
    DrainAll(d1, k, id, now);
    FifoIndices(waiting, ms, SubTimes(d1, k, id, now, |all|).1);
  }

  /** Draining `Reverse(ms) + waiting` from the tail yields `waiting`
      oldest first, then `ms` in order. */
  lemma FifoIndices(waiting: seq<Msg>, ms: seq<Msg>, out: seq<Option<Msg>>)
    requires var all := Reverse(ms) + waiting;
             |out| == |all| && forall i :: 0 <= i < |all| ==> out[i] == Some(all[|all| - 1 - i])
    ensures forall i :: 0 <= i < |waiting| ==> out[i] == Some(waiting[|waiting| - 1 - i])
    ensures forall j :: 0 <= j < |ms| ==> out[|waiting| + j] == Some(ms[j])
  {
    var all := Reverse(ms) + waiting;
    forall i | 0 <= i < |waiting|
      ensures out[i] == Some(waiting[|waiting| - 1 - i])
    {
      assert all[|all| - 1 - i] == waiting[|waiting| - 1 - i];
    }
    forall j | 0 <= j < |ms|
      ensures out[|waiting| + j] == Some(ms[j])
    {
      assert all[|all| - 1 - (|waiting| + j)] == Reverse(ms)[|ms| - 1 - j];
      ReverseIndex(ms, |ms| - 1 - j);
    }
  }

  /** The publication order for three messages: pub A, pub B, pub C on an
      empty queue, then three SUBs receive A, B and C in that order. */
  lemma ThreeInThreeOut(db: DB, k: Keys, id: Id, now: int, a: Msg, b: Msg, c: Msg)
    requires Open(db, k) && ListAt(db, k.pending) == Some([])
    ensures var d := PubEffect(PubEffect(PubEffect(db, k, a).0, k, b).0, k, c).0;
            SubTimes(d, k, id, now, 3).1 == [Some(a), Some(b), Some(c)]
  {
    var d1 := PubEffect(db, k, a).0;
    var d2 := PubEffect(d1, k, b).0;
    var d3 := PubEffect(d2, k, c).0;
    PubOne(db, k, a);
    assert [a] + [] == [a];
    PubOne(d1, k, b);
    assert [b] + [a] == [b, a];
    PubOne(d2, k, c);
    assert [c] + [b, a] == [c, b, a];
    SubTimesDrains(d3, k, id, now, 3);
    var out := SubTimes(d3, k, id, now, 3).1;
    assert [c, b, a][3 - 3..] == [c, b, a];
    DeliveriesAll([c, b, a]);
    assert out[0] == Some(a) && out[1] == Some(b) && out[2] == Some(c);
  }

  /** A requeue of a message being processed keeps the queue open and
      puts the message on the head of pending. */
  lemma ReQueueOne(db: DB, k: Keys, m: Msg)
    requires Open(db, k) && m in ListAt(db, k.processing).value
    ensures var (d, n) := ReQueueEffect(db, k, m);
            var pending := ListAt(db, k.pending).value;
            && ListAt(d, k.pending) == Some([m] + pending)
            && n == |pending| + 1
            && Open(d, k)
  {
    ReQueueMoves(db, k, m);
    Untouched(db, ReQueueEffect(db, k, m).0, {k.pending, k.processing}, k.shutdown);
  }

  /** A requeued message goes to the back of the line: the SUBs that follow
      deliver every message that was waiting before it, and only then the
      requeued one. */
  lemma RequeueGoesToBack(db: DB, k: Keys, id: Id, now: int, m: Msg)
    requires Open(db, k) && m in ListAt(db, k.processing).value
    ensures var waiting := ListAt(db, k.pending).value;
            var (d, n) := ReQueueEffect(db, k, m);
            var out := SubTimes(d, k, id, now, |waiting| + 1).1;
            && n == |waiting| + 1
            && (forall i :: 0 <= i < |waiting| ==> out[i] == Some(waiting[|waiting| - 1 - i]))
            && out[|waiting|] == Some(m)
  {
    var waiting := ListAt(db, k.pending).value;
    var d := ReQueueEffect(db, k, m).0;
    ReQueueOne(db, k, m);
    var all := [m] + waiting;
    DrainAll(d, k, id, now);
    RequeueIndices(waiting, m, SubTimes(d, k, id, now, |all|).1);
  }

  /** Draining `[m] + waiting` from the tail yields `waiting` oldest first,
      then `m`. */
  lemma RequeueIndices(waiting: seq<Msg>, m: Msg, out: seq<Option<Msg>>)
    requires var all := [m] + waiting;
             |out| == |all| && forall i :: 0 <= i < |all| ==> out[i] == Some(all[|all| - 1 - i])
    ensures forall i :: 0 <= i < |waiting| ==> out[i] == Some(waiting[|waiting| - 1 - i])
    ensures out[|waiting|] == Some(m)
  {
    var all := [m] + waiting;
    forall i | 0 <= i < |waiting|
      ensures out[i] == Some(waiting[|waiting| - 1 - i])
    {
      assert all[|all| - 1 - i] == waiting[|waiting| - 1 - i];
    }
    assert out[|waiting|] == Some(all[0]);
  }

  /** Publish A and B, take A, requeue it (the reply is 2, the new length
      of pending), and the next two SUBs deliver B and then A. */
  lemma RequeueScenario(db: DB, k: Keys, id: Id, now: int, a: Msg, b: Msg)
    requires Open(db, k) && ListAt(db, k.pending) == Some([])
    ensures var d2 := PubEffect(PubEffect(db, k, a).0, k, b).0;
            var (d3, first) := SubEffect(d2, k, id, now);
            var (d4, n) := ReQueueEffect(d3, k, a);
            && first == Some(a)
            && n == 2
            && SubTimes(d4, k, id, now, 2).1 == [Some(b), Some(a)]
  {
    var d1 := PubEffect(db, k, a).0;
    var d2 := PubEffect(d1, k, b).0;
    PubOne(db, k, a);
    assert [a] + [] == [a];
    PubOne(d1, k, b);
    assert [b] + [a] == [b, a];
    SubOne(d2, k, id, now);
    var d3 := SubEffect(d2, k, id, now).0;
    assert [b, a][..1] == [b];
    assert ListAt(d3, k.pending) == Some([b]);
    assert a in ListAt(d3, k.processing).value;
    RequeueGoesToBack(d3, k, id, now, a);
    var out := SubTimes(ReQueueEffect(d3, k, a).0, k, id, now, 2).1;
    assert out[0] == Some(b) && out[1] == Some(a);
  }

  /** Crash recovery gives back what was taken: if `n` messages were
      delivered from a queue with nothing in processing and never
      acknowledged, recovery restores pending exactly, and `n` SUBs (by any
      subscriber, at any later time) deliver the same messages again in the
      same order. */
  lemma RecoveryRedelivers(db: DB, k: Keys, id: Id, now: int, id2: Id, now2: int, n: nat)
    requires Open(db, k) && ListAt(db, k.processing) == Some([])
    requires n <= |ListAt(db, k.pending).value|
    ensures var (d1, first) := SubTimes(db, k, id, now, n);
            var d2 := RecoverEffect(d1, k).0;
            && ListAt(d2, k.pending) == ListAt(db, k.pending)
            && ListAt(d2, k.processing) == Some([])
            && SubTimes(d2, k, id2, now2, n).1 == first
  {
    var pending := ListAt(db, k.pending).value;
    SubTimesDrains(db, k, id, now, n);
    var (d1, first) := SubTimes(db, k, id, now, n);
    RecoverMovesProcessing(d1, k);
    var d2 := RecoverEffect(d1, k).0;
    assert pending[..|pending| - n] + (pending[|pending| - n..] + []) == pending;
    SubTimesDrains(d2, k, id2, now2, n);
  }

  /** A single delivery survives a crash: pub M, SUB takes M and the
      subscriber dies before acknowledging; after recovery the next SUB
      receives M again and processing holds only that new delivery. */
  lemma CrashScenario(db: DB, k: Keys, id: Id, now: int, id2: Id, now2: int, m: Msg)
    requires Open(db, k) && ListAt(db, k.pending) == Some([]) && ListAt(db, k.processing) == Some([])
    ensures var d1 := PubEffect(db, k, m).0;
            var (d2, got) := SubEffect(d1, k, id, now);
            var d3 := RecoverEffect(d2, k).0;
            var (d4, again) := SubEffect(d3, k, id2, now2);
            && got == Some(m) && again == Some(m)
            && ListAt(d4, k.pending) == Some([]) && ListAt(d4, k.processing) == Some([m])
  {
    var d1 := PubEffect(db, k, m).0;
    PubOne(db, k, m);
    assert [m] + [] == [m];
    SubOne(d1, k, id, now);
    var d2 := SubEffect(d1, k, id, now).0;
    assert [m][..0] == [];
    assert ListAt(d2, k.pending) == Some([]) && ListAt(d2, k.processing) == Some([m]);
    RecoverMovesProcessing(d2, k);
    var d3 := RecoverEffect(d2, k).0;
    assert [] + [m] == [m];
    assert ListAt(d3, k.pending) == Some([m]) && ListAt(d3, k.processing) == Some([]);
    SubOne(d3, k, id2, now2);
  }
}
