/** The in-memory bus: publishers snapshot the subscribers of a stream under a lock and then put into
    bounded queues one by one, while everything else interleaves. */
module EventBus {
  import opened Domain

  datatype Stream =
    | MarketTick | MarketBook | SignalEmitted | IntentApproved | IntentRejected | OrderSubmitted
    | OrderCanceled | FillReceived | PositionUpdated | RiskKillSwitch | ReconcileMismatch

  datatype Envelope = Envelope(id: Id, stream: Stream, payload: string)

  /** One subscriber's queue, with the history of everything put and everything taken. */
  datatype Queue = Queue(stream: Stream, buffer: seq<Envelope>, puts: seq<Envelope>, taken: seq<Envelope>)

  /** Waiting for the lock, or putting to `targets[next]` with the earlier ones delivered. */
  datatype Phase = Starting | Delivering(targets: seq<nat>, next: nat)

  datatype Publisher = Publisher(envelope: Envelope, phase: Phase) {
    predicate Finished() {
      phase.Delivering? && phase.next == |phase.targets|
    }

    predicate Delivered(q: nat) {
      phase.Delivering? && phase.next <= |phase.targets| && q in phase.targets[..phase.next]
    }
  }

  datatype Bus = Bus(
    maxsize: int,
    subscribers: map<Stream, seq<nat>>,
    queues: map<nat, Queue>,
    publishers: map<Id, Publisher>)

  /** The atomic pieces of the coroutines. An envelope's id is that of its publish call. */
  datatype Action =
    | Publish(id: Id, stream: Stream, payload: string)
    | Snapshot(id: Id)
    | Put(id: Id)
    | Subscribe(queue: nat, stream: Stream)
    | Get(queue: nat)

  function Empty(maxsize: int): Bus {
    Bus(maxsize, map[], map[], map[])
  }

  function SubscribersOf(b: Bus, stream: Stream): seq<nat> {
    if stream in b.subscribers then b.subscribers[stream] else []
  }

  /** A queue without a positive bound is never full. */
  predicate Full(b: Bus, q: nat)
    requires q in b.queues
  {
    0 < b.maxsize <= |b.queues[q].buffer|
  }

  predicate CanPut(b: Bus, id: Id) {
    && id in b.publishers
    && b.publishers[id].phase.Delivering?
    && b.publishers[id].phase.next < |b.publishers[id].phase.targets|
    && var q := b.publishers[id].phase.targets[b.publishers[id].phase.next];
       q in b.queues && !Full(b, q)
  }

  /** A publish call that waits at a full queue. */
  predicate Blocked(b: Bus, id: Id) {
    && id in b.publishers && b.publishers[id].phase.Delivering?
    && b.publishers[id].phase.next < |b.publishers[id].phase.targets|
    && var q := b.publishers[id].phase.targets[b.publishers[id].phase.next];
       q in b.queues && Full(b, q)
  }

  /** One atomic piece; an action that is not possible changes nothing. */
  function Step(b: Bus, a: Action): Bus {
    match a
    case Publish(id, stream, payload) =>
      if id in b.publishers then b
      else b.(publishers := b.publishers[id := Publisher(Envelope(id, stream, payload), Starting)])
    case Snapshot(id) =>
      if id !in b.publishers || !b.publishers[id].phase.Starting? then b
      else
        var e := b.publishers[id].envelope;
        b.(publishers := b.publishers[id := Publisher(e, Delivering(SubscribersOf(b, e.stream), 0))])
    case Put(id) =>
      if !CanPut(b, id) then b
      else
        var p := b.publishers[id];
        var q := p.phase.targets[p.phase.next];
        var queue := b.queues[q];
        var filled := Queue(queue.stream, queue.buffer + [p.envelope], queue.puts + [p.envelope], queue.taken);
        b.(queues := b.queues[q := filled],
           publishers := b.publishers[id := Publisher(p.envelope, Delivering(p.phase.targets, p.phase.next + 1))])
    case Subscribe(q, stream) =>
      if q in b.queues then b
      else b.(queues := b.queues[q := Queue(stream, [], [], [])],
              subscribers := b.subscribers[stream := SubscribersOf(b, stream) + [q]])
    case Get(q) =>
      if q !in b.queues || b.queues[q].buffer == [] then b
      else
        var queue := b.queues[q];
        b.(queues := b.queues[q := Queue(queue.stream, queue.buffer[1..], queue.puts, queue.taken + [queue.buffer[0]])])
  }

  function Exec(b: Bus, acts: seq<Action>): Bus {
    if acts == [] then b else Step(Exec(b, acts[..|acts| - 1]), acts[|acts| - 1])
  }

  lemma {:induction false} ExecConcat(b: Bus, acts: seq<Action>, more: seq<Action>)
    ensures Exec(b, acts + more) == Exec(Exec(b, acts), more)
    decreases |more|
  {
    hide Step;
    if more == [] {
      assert acts + more == acts;
    } else {
      ExecConcat(b, acts, more[..|more| - 1]);
      assert (acts + more)[..|acts + more| - 1] == acts + more[..|more| - 1];
    }
  }

  // ----- The invariant ---------------------------------------------------------------------------

  ghost predicate Distinct(qs: seq<nat>) {
    forall i, j :: 0 <= i < j < |qs| ==> qs[i] != qs[j]
  }

  /** No loss, no duplicate and no reordering between what was put and what is taken; the bound; and
      only envelopes of this stream that somebody published. */
  ghost predicate QueueOk(b: Bus, queue: Queue) {
    && queue.puts == queue.taken + queue.buffer
    && (0 < b.maxsize ==> |queue.buffer| <= b.maxsize)
    && (forall i :: 0 <= i < |queue.puts| ==>
          var e := queue.puts[i];
          e.stream == queue.stream && e.id in b.publishers && b.publishers[e.id].envelope == e)
  }

  ghost predicate TargetsOk(b: Bus, stream: Stream, qs: seq<nat>) {
    && Distinct(qs)
    && (forall i :: 0 <= i < |qs| ==> qs[i] in b.queues && b.queues[qs[i]].stream == stream)
  }

  ghost predicate PublisherOk(b: Bus, id: Id) {
    id in b.publishers ==>
      var p := b.publishers[id];
      && p.envelope.id == id
      && (p.phase.Delivering? ==> p.phase.next <= |p.phase.targets| && TargetsOk(b, p.envelope.stream, p.phase.targets))
  }

  /** How often a publisher's envelope was put to a queue. */
  ghost function Copies(b: Bus, id: Id, q: nat): nat
    requires id in b.publishers && q in b.queues
  {
    multiset(b.queues[q].puts)[b.publishers[id].envelope]
  }

  ghost predicate DeliveredOnce(b: Bus, id: Id, q: nat) {
    id in b.publishers && q in b.queues ==>
      Copies(b, id, q) == if b.publishers[id].Delivered(q) then 1 else 0
  }

  ghost predicate Inv(b: Bus) {
    && (forall q :: q in b.queues ==> QueueOk(b, b.queues[q]))
    && (forall stream :: TargetsOk(b, stream, SubscribersOf(b, stream)))
    && (forall q :: q in b.queues ==> q in SubscribersOf(b, b.queues[q].stream))
    && (forall id :: PublisherOk(b, id))
    && (forall id, q :: DeliveredOnce(b, id, q))
  }

  lemma PublishKeepsInv(b: Bus, id: Id, stream: Stream, payload: string)
    requires Inv(b) && id !in b.publishers
    ensures Inv(Step(b, Publish(id, stream, payload)))
  {
    var c := Step(b, Publish(id, stream, payload));
    var e := Envelope(id, stream, payload);
    forall q | q in c.queues
      ensures QueueOk(c, c.queues[q])
      ensures e !in c.queues[q].puts
    {
      assert QueueOk(b, b.queues[q]);
    }
    forall s: Stream
      ensures TargetsOk(c, s, SubscribersOf(c, s))
    {
      assert TargetsOk(b, s, SubscribersOf(b, s));
    }
    forall i: Id
      ensures PublisherOk(c, i)
    {
      assert PublisherOk(b, i);
    }
    forall i: Id, q: nat
      ensures DeliveredOnce(c, i, q)
    {
      assert DeliveredOnce(b, i, q);
      assert q in c.queues ==> e !in multiset(c.queues[q].puts);
    }
  }

  lemma SnapshotKeepsInv(b: Bus, id: Id)
    requires Inv(b) && id in b.publishers && b.publishers[id].phase.Starting?
    ensures Inv(Step(b, Snapshot(id)))
  {
    var c := Step(b, Snapshot(id));
    forall q | q in c.queues
      ensures QueueOk(c, c.queues[q])
    {
      assert QueueOk(b, b.queues[q]);
    }
    forall s: Stream
      ensures TargetsOk(c, s, SubscribersOf(c, s))
    {
      assert TargetsOk(b, s, SubscribersOf(b, s));
    }
    forall i: Id
      ensures PublisherOk(c, i)
    {
      assert PublisherOk(b, i);
      assert TargetsOk(b, b.publishers[id].envelope.stream, SubscribersOf(b, b.publishers[id].envelope.stream));
    }
    forall i: Id, q: nat
      ensures DeliveredOnce(c, i, q)
    {
      assert DeliveredOnce(b, i, q);
    }
  }

  lemma SubscribeKeepsInv(b: Bus, q: nat, stream: Stream)
    requires Inv(b) && q !in b.queues
    ensures Inv(Step(b, Subscribe(q, stream)))
  {
    var c := Step(b, Subscribe(q, stream));
    forall r | r in c.queues
      ensures QueueOk(c, c.queues[r])
      ensures r in SubscribersOf(c, c.queues[r].stream)
    {
      if r != q {
        assert QueueOk(b, b.queues[r]);
      } else {
        assert SubscribersOf(c, stream)[|SubscribersOf(b, stream)|] == q;
      }
    }
    forall s: Stream
      ensures TargetsOk(c, s, SubscribersOf(c, s))
    {
      assert TargetsOk(b, s, SubscribersOf(b, s));
    }
    forall i: Id
      ensures PublisherOk(c, i)
    {
      assert PublisherOk(b, i);
    }
    forall i: Id, r: nat
      ensures DeliveredOnce(c, i, r)
    {
      assert DeliveredOnce(b, i, r);
      if r == q && i in b.publishers {
        assert PublisherOk(b, i);
        assert !b.publishers[i].Delivered(q);
      }
    }
  }

  lemma GetKeepsInv(b: Bus, q: nat)
    requires Inv(b) && q in b.queues && b.queues[q].buffer != []
    ensures Inv(Step(b, Get(q)))
  {
    var c := Step(b, Get(q));
    var before, after := b.queues[q], c.queues[q];
    assert QueueOk(b, before);
    assert after.taken + after.buffer == before.taken + ([before.buffer[0]] + before.buffer[1..]);
    forall r | r in c.queues
      ensures QueueOk(c, c.queues[r])
      ensures c.queues[r].stream == b.queues[r].stream && c.queues[r].puts == b.queues[r].puts
    {
      assert QueueOk(b, b.queues[r]);
    }
    forall s: Stream
      ensures TargetsOk(c, s, SubscribersOf(c, s))
    {
      assert TargetsOk(b, s, SubscribersOf(b, s));
    }
    forall i: Id
      ensures PublisherOk(c, i)
    {
      assert PublisherOk(b, i);
    }
    forall i: Id, r: nat
      ensures DeliveredOnce(c, i, r)
    {
      assert DeliveredOnce(b, i, r);
    }
  }

  lemma PutKeepsInv(b: Bus, id: Id)
    requires Inv(b) && CanPut(b, id)
    ensures Inv(Step(b, Put(id)))
  {
    var c := Step(b, Put(id));
    var p := b.publishers[id];
    var q := p.phase.targets[p.phase.next];
    assert PublisherOk(b, id);
    assert QueueOk(b, b.queues[q]);
    forall r | r in c.queues
      ensures QueueOk(c, c.queues[r])
      ensures c.queues[r].stream == b.queues[r].stream
    {
      assert QueueOk(b, b.queues[r]);
    }
    forall s: Stream
      ensures TargetsOk(c, s, SubscribersOf(c, s))
    {
      assert TargetsOk(b, s, SubscribersOf(b, s));
    }
    forall i: Id
      ensures PublisherOk(c, i)
    {
      assert PublisherOk(b, i);
    }
    forall i: Id, r: nat
      ensures DeliveredOnce(c, i, r)
    {
      PutCounts(b, id, i, r);
    }
  }

  lemma PutCounts(b: Bus, id: Id, i: Id, r: nat)
    requires Inv(b) && CanPut(b, id)
    ensures DeliveredOnce(Step(b, Put(id)), i, r)
  {
    var c := Step(b, Put(id));
    var p := b.publishers[id];
    var next, targets := p.phase.next, p.phase.targets;
    var q := targets[next];
    assert PublisherOk(b, id) && PublisherOk(b, i) && DeliveredOnce(b, i, r);
    assert targets[..next + 1] == targets[..next] + [q];
    assert c.queues[q].puts == b.queues[q].puts + [p.envelope];
    if i in b.publishers && r in b.queues && r == q && i == id {
      assert q !in targets[..next];
    }
  }

  lemma StepKeepsInv(b: Bus, a: Action)
    requires Inv(b)
    ensures Inv(Step(b, a))
  {
    hide Inv;
    match a
    case Publish(id, stream, payload) =>
      if id !in b.publishers {
        PublishKeepsInv(b, id, stream, payload);
      }
    case Snapshot(id) =>
      if id in b.publishers && b.publishers[id].phase.Starting? {
        SnapshotKeepsInv(b, id);
      }
    case Put(id) =>
      if CanPut(b, id) {
        PutKeepsInv(b, id);
      }
    case Subscribe(q, stream) =>
      if q !in b.queues {
        SubscribeKeepsInv(b, q, stream);
      }
    case Get(q) =>
      if q in b.queues && b.queues[q].buffer != [] {
        GetKeepsInv(b, q);
      }
  }

  lemma {:induction false} ExecKeepsInv(b: Bus, acts: seq<Action>)
    requires Inv(b)
    ensures Inv(Exec(b, acts))
  {
    if acts != [] {
      hide Inv, Step;
      ExecKeepsInv(b, acts[..|acts| - 1]);
      StepKeepsInv(Exec(b, acts[..|acts| - 1]), acts[|acts| - 1]);
    }
  }

  lemma EmptyIsOk(maxsize: int)
    ensures Inv(Empty(maxsize))
  {
  }

  lemma {:induction false} BoundStays(b: Bus, acts: seq<Action>)
    ensures Exec(b, acts).maxsize == b.maxsize
  {
    if acts != [] {
      BoundStays(b, acts[..|acts| - 1]);
    }
  }

  // ----- Exactly once ----------------------------------------------------------------------------

  /** In every reachable state: what a subscriber took followed by what is buffered for it is what was
      put to it, the bound holds, and streams never mix; and each publish has reached each queue that
      it has dealt with once, and no other queue. */
  lemma EveryReachableStateDeliversOnce(maxsize: int, acts: seq<Action>, q: nat, id: Id)
    ensures var b := Exec(Empty(maxsize), acts);
            && b.maxsize == maxsize
            && (q in b.queues ==> QueueOk(b, b.queues[q]))
            && (q in b.queues && 0 < maxsize ==> |b.queues[q].buffer| <= maxsize)
            && (q in b.queues && id in b.publishers ==>
                  && Copies(b, id, q) == (if b.publishers[id].Delivered(q) then 1 else 0)
                  && (b.publishers[id].phase.Delivering? ==> Distinct(b.publishers[id].phase.targets))
                  && (b.publishers[id].Finished() ==>
                        Copies(b, id, q) == if q in b.publishers[id].phase.targets then 1 else 0))
  {
    hide Exec;
    EmptyIsOk(maxsize);
    ExecKeepsInv(Empty(maxsize), acts);
    BoundStays(Empty(maxsize), acts);
    var b := Exec(Empty(maxsize), acts);
    assert DeliveredOnce(b, id, q) && PublisherOk(b, id);
    if id in b.publishers && b.publishers[id].Finished() {
      assert b.publishers[id].phase.targets[..b.publishers[id].phase.next] == b.publishers[id].phase.targets;
    }
  }

  /** A publish call that has queues left puts to the next one, unless that queue holds as many envelopes
      as the bus was made for; a bus made without a positive bound never makes it wait. */
  lemma PutsUnlessFull(maxsize: int, acts: seq<Action>, id: Id)
    requires var b := Exec(Empty(maxsize), acts);
             id in b.publishers && b.publishers[id].phase.Delivering? && !b.publishers[id].Finished()
    ensures var b, c := Exec(Empty(maxsize), acts), Exec(Empty(maxsize), acts + [Put(id)]);
            var p := b.publishers[id];
            && p.phase.next < |p.phase.targets| && p.phase.targets[p.phase.next] in b.queues
            && var q := p.phase.targets[p.phase.next];
               && (c == b <==> 0 < maxsize && |b.queues[q].buffer| == maxsize)
               && (c != b ==>
                     && id in c.publishers && q in c.queues
                     && c.queues[q].buffer == b.queues[q].buffer + [p.envelope]
                     && c.publishers[id].phase == Delivering(p.phase.targets, p.phase.next + 1))
  {
    var b := Exec(Empty(maxsize), acts);
    assert (acts + [Put(id)])[..|acts + [Put(id)]| - 1] == acts;
    assert Exec(Empty(maxsize), acts + [Put(id)]) == Step(b, Put(id));
    hide Exec;
    EmptyIsOk(maxsize);
    ExecKeepsInv(Empty(maxsize), acts);
    BoundStays(Empty(maxsize), acts);
    assert PublisherOk(b, id);
    assert QueueOk(b, b.queues[b.publishers[id].phase.targets[b.publishers[id].phase.next]]);
  }

  /** A snapshot takes in exactly the queues subscribed to its stream at that moment. */
  lemma SnapshotTakesEverySubscriber(maxsize: int, acts: seq<Action>, id: Id, q: nat)
    requires var b := Exec(Empty(maxsize), acts);
             id in b.publishers && b.publishers[id].phase.Starting?
    ensures var b, c := Exec(Empty(maxsize), acts), Exec(Empty(maxsize), acts + [Snapshot(id)]);
            && id in c.publishers && c.publishers[id].phase.Delivering? && c.publishers[id].phase.next == 0
            && (q in c.publishers[id].phase.targets <==>
                  q in b.queues && b.queues[q].stream == b.publishers[id].envelope.stream)
  {
    var b := Exec(Empty(maxsize), acts);
    assert (acts + [Snapshot(id)])[..|acts + [Snapshot(id)]| - 1] == acts;
    assert Exec(Empty(maxsize), acts + [Snapshot(id)]) == Step(b, Snapshot(id));
    hide Exec;
    EmptyIsOk(maxsize);
    ExecKeepsInv(Empty(maxsize), acts);
    assert TargetsOk(b, b.publishers[id].envelope.stream, SubscribersOf(b, b.publishers[id].envelope.stream));
  }

  // ----- Order -----------------------------------------------------------------------------------

  /** What later states keep: queues and histories only grow, envelopes and snapshots stay. */
  ghost predicate QueueGrows(b: Bus, c: Bus, q: nat) {
    q in b.queues ==>
      q in c.queues && c.queues[q].stream == b.queues[q].stream
      && b.queues[q].puts <= c.queues[q].puts && b.queues[q].taken <= c.queues[q].taken
  }

  ghost predicate PublisherGrows(b: Bus, c: Bus, id: Id) {
    id in b.publishers ==>
      && id in c.publishers && c.publishers[id].envelope == b.publishers[id].envelope
      && (b.publishers[id].phase.Delivering? ==>
            c.publishers[id].phase.Delivering? && c.publishers[id].phase.targets == b.publishers[id].phase.targets)
  }

  lemma StepGrows(b: Bus, a: Action, q: nat, id: Id)
    ensures QueueGrows(b, Step(b, a), q)
    ensures PublisherGrows(b, Step(b, a), id)
  {
  }

  lemma {:induction false} ExecGrows(b: Bus, acts: seq<Action>, q: nat, id: Id)
    ensures QueueGrows(b, Exec(b, acts), q)
    ensures PublisherGrows(b, Exec(b, acts), id)
  {
    if acts != [] {
      hide Step;
      ExecGrows(b, acts[..|acts| - 1], q, id);
      StepGrows(Exec(b, acts[..|acts| - 1]), acts[|acts| - 1], q, id);
    }
  }

  /** `first` comes before `second` wherever both occur, and never after it came. */
  ghost predicate Precedes(es: seq<Envelope>, first: Envelope, second: Envelope) {
    && (forall i, j :: 0 <= i < |es| && 0 <= j < |es| && es[i] == first && es[j] == second ==> i < j)
    && (second in es ==> first in es)
  }

  lemma TwoCopies(es: seq<Envelope>, e: Envelope, i: nat, j: nat)
    requires i < j < |es| && es[i] == e && es[j] == e
    ensures 2 <= multiset(es)[e]
  {
    assert es == es[..j] + [es[j]] + es[j + 1..];
    assert es[..j][i] == e;
    assert e in multiset(es[..j]);
  }

  lemma PrefixPrecedes(es: seq<Envelope>, n: nat, first: Envelope, second: Envelope)
    requires n <= |es| && Precedes(es, first, second)
    ensures Precedes(es[..n], first, second)
  {
    if second in es[..n] {
      var j :| 0 <= j < n && es[j] == second;
      assert es[j] == second && second in es;
      var i :| 0 <= i < |es| && es[i] == first;
      assert es[..n][i] == first;
    }
  }

  /** If one publish returned before another began, then every queue of the first one's snapshot gets
      and hands out the two in that order, whoever else publishes and whichever queue is full. */
  lemma EarlierPublishComesFirst(maxsize: int, acts: seq<Action>, more: seq<Action>, a: Id, b: Id, q: nat)
    requires var s := Exec(Empty(maxsize), acts);
             && a in s.publishers && s.publishers[a].Finished() && q in s.publishers[a].phase.targets
             && b !in s.publishers
    requires b in Exec(Empty(maxsize), acts + more).publishers
    ensures var t := Exec(Empty(maxsize), acts + more);
            && q in t.queues && a in t.publishers
            && var first, second := t.publishers[a].envelope, t.publishers[b].envelope;
               && first in t.queues[q].puts
               && Precedes(t.queues[q].puts, first, second)
               && Precedes(t.queues[q].taken, first, second)
               && (t.publishers[b].Finished() && q in t.publishers[b].phase.targets ==> second in t.queues[q].puts)
  {
    var s, t := Exec(Empty(maxsize), acts), Exec(Empty(maxsize), acts + more);
    ExecConcat(Empty(maxsize), acts, more);
    hide Exec;
    EmptyIsOk(maxsize);
    ExecKeepsInv(Empty(maxsize), acts);
    ExecKeepsInv(s, more);
    ExecGrows(s, more, q, a);
    FinishedMeansPut(s, a, q);
    var first, second := t.publishers[a].envelope, t.publishers[b].envelope;
    assert PublisherOk(t, a) && PublisherOk(t, b) && QueueOk(s, s.queues[q]) && QueueOk(t, t.queues[q]);
    assert DeliveredOnce(t, a, q) && Copies(t, a, q) <= 1;
    OldBeforeNew(s.queues[q].puts, t.queues[q].puts, first, second);
    assert t.queues[q].taken == t.queues[q].puts[..|t.queues[q].taken|];
    PrefixPrecedes(t.queues[q].puts, |t.queues[q].taken|, first, second);
    if t.publishers[b].Finished() && q in t.publishers[b].phase.targets {
      FinishedMeansPut(t, b, q);
    }
  }

  lemma FinishedMeansPut(b: Bus, id: Id, q: nat)
    requires Inv(b) && id in b.publishers && b.publishers[id].Finished() && q in b.publishers[id].phase.targets
    ensures q in b.queues && b.publishers[id].envelope in b.queues[q].puts
  {
    var p := b.publishers[id];
    assert PublisherOk(b, id);
    assert q in b.queues;
    assert p.phase.targets[..p.phase.next] == p.phase.targets;
    assert DeliveredOnce(b, id, q);
    assert Copies(b, id, q) == 1;
    assert p.envelope in multiset(b.queues[q].puts);
  }

  lemma OldBeforeNew(older: seq<Envelope>, newer: seq<Envelope>, first: Envelope, second: Envelope)
    requires older <= newer && first in older && second !in older && multiset(newer)[first] <= 1
    ensures Precedes(newer, first, second)
  {
    var k :| 0 <= k < |older| && older[k] == first;
    assert newer[k] == first;
    forall m | 0 <= m < |older|
      ensures newer[m] != second
    {
      assert newer[m] == older[m];
    }
    forall i, j | 0 <= i < |newer| && 0 <= j < |newer| && newer[i] == first && newer[j] == second
      ensures i < j
    {
      if i != k {
        TwoCopies(newer, first, if i < k then i else k, if i < k then k else i);
      }
    }
  }

  /** A subscriber that arrives after a snapshot never gets that envelope. */
  lemma LateSubscriberMissesIt(maxsize: int, acts: seq<Action>, more: seq<Action>, id: Id, q: nat)
    requires var s := Exec(Empty(maxsize), acts);
             id in s.publishers && s.publishers[id].phase.Delivering? && q !in s.queues
    requires q in Exec(Empty(maxsize), acts + more).queues
    ensures var t := Exec(Empty(maxsize), acts + more);
            id in t.publishers && t.publishers[id].envelope !in t.queues[q].puts
  {
    var s, t := Exec(Empty(maxsize), acts), Exec(Empty(maxsize), acts + more);
    ExecConcat(Empty(maxsize), acts, more);
    hide Exec;
    EmptyIsOk(maxsize);
    ExecKeepsInv(Empty(maxsize), acts);
    ExecKeepsInv(s, more);
    ExecGrows(s, more, q, id);
    assert PublisherOk(s, id) && PublisherOk(t, id) && DeliveredOnce(t, id, q);
    assert q !in s.publishers[id].phase.targets;
    assert !t.publishers[id].Delivered(q);
    assert Copies(t, id, q) == 0;
    assert t.publishers[id].envelope !in multiset(t.queues[q].puts);
  }

  // ----- Oldest subscriber first -----------------------------------------------------------------

  /** A new queue starts empty, at the end of its own stream's list. */
  lemma SubscribeAppends(b: Bus, q: nat, stream: Stream)
    requires q !in b.queues
    ensures var c := Step(b, Subscribe(q, stream));
            && c.queues == b.queues[q := Queue(stream, [], [], [])] && c.publishers == b.publishers
            && (forall s :: SubscribersOf(c, s) == SubscribersOf(b, s) + (if s == stream then [q] else []))
  {
  }

  /** A stream's list only grows, and only at its end. */
  lemma {:induction false} SubscribersGrow(b: Bus, acts: seq<Action>, stream: Stream)
    ensures SubscribersOf(b, stream) <= SubscribersOf(Exec(b, acts), stream)
  {
    if acts != [] {
      SubscribersGrow(b, acts[..|acts| - 1], stream);
    }
  }

  /** A snapshot that holds a later subscriber begins with all the earlier ones, oldest first. */
  lemma {:induction false} LaterSnapshotsExtend(b: Bus, acts: seq<Action>, id: Id, newer: nat)
    requires Inv(b) && newer !in b.queues
    ensures var c := Exec(b, acts);
            id in c.publishers && c.publishers[id].phase.Delivering? && newer in c.publishers[id].phase.targets ==>
              SubscribersOf(b, c.publishers[id].envelope.stream) <= c.publishers[id].phase.targets
  {
    if acts == [] {
      assert PublisherOk(b, id);
    } else {
      var init := acts[..|acts| - 1];
      LaterSnapshotsExtend(b, init, id, newer);
      var s := Exec(b, init);
      if id in s.publishers {
        SubscribersGrow(b, init, s.publishers[id].envelope.stream);
      }
    }
  }

  lemma PrefixHolds(prefix: seq<nat>, all: seq<nat>, j: nat)
    requires prefix <= all && j < |all|
    ensures j < |prefix| ==> all[j] in prefix
  {
    assert j < |prefix| ==> prefix[j] == all[j];
  }

  /** Whoever subscribed earlier gets an envelope earlier: when a later subscriber of the stream has been
      given it, so has every earlier one. */
  lemma OldestSubscriberFirst(maxsize: int, acts: seq<Action>, more: seq<Action>, id: Id, older: nat, newer: nat)
    requires var s, t := Exec(Empty(maxsize), acts), Exec(Empty(maxsize), acts + more);
             && older in s.queues && newer !in s.queues && newer in t.queues
             && s.queues[older].stream == t.queues[newer].stream
             && id in t.publishers && t.publishers[id].envelope in t.queues[newer].puts
    ensures var t := Exec(Empty(maxsize), acts + more);
            older in t.queues && t.publishers[id].envelope in t.queues[older].puts
  {
    var s, t := Exec(Empty(maxsize), acts), Exec(Empty(maxsize), acts + more);
    ExecConcat(Empty(maxsize), acts, more);
    EmptyIsOk(maxsize);
    ExecKeepsInv(Empty(maxsize), acts);
    ExecKeepsInv(s, more);
    LaterSnapshotsExtend(s, more, id, newer);
    ExecGrows(s, more, older, id);
    hide Exec;
    var p := t.publishers[id];
    assert PublisherOk(t, id) && DeliveredOnce(t, id, newer) && DeliveredOnce(t, id, older);
    assert p.envelope in multiset(t.queues[newer].puts);
    assert p.Delivered(newer);
    var earlier := SubscribersOf(s, p.envelope.stream);
    assert TargetsOk(s, p.envelope.stream, earlier);
    var j :| 0 <= j < p.phase.next && p.phase.targets[j] == newer;
    PrefixHolds(earlier, p.phase.targets, j);
    assert older in earlier;
    var i :| 0 <= i < |earlier| && earlier[i] == older;
    assert p.phase.targets[..p.phase.next][i] == older;
    assert p.Delivered(older);
    assert p.envelope in multiset(t.queues[older].puts);
  }

  // ----- Progress --------------------------------------------------------------------------------

  lemma GetMakesRoom(b: Bus, id: Id)
    requires Inv(b) && Blocked(b, id)
    ensures var q := b.publishers[id].phase.targets[b.publishers[id].phase.next];
            CanPut(Step(b, Get(q)), id) && Step(b, Get(q)).publishers == b.publishers
  {
    var q := b.publishers[id].phase.targets[b.publishers[id].phase.next];
    assert QueueOk(b, b.queues[q]);
  }

  lemma ExecOne(b: Bus, a: Action, more: seq<Action>)
    ensures Exec(b, [a] + more) == Exec(Step(b, a), more)
  {
    hide Step;
    ExecConcat(b, [a], more);
    assert [a][..0] == [];
    assert Exec(b, []) == b;
  }

  function Remaining(p: Publisher): nat {
    if p.phase.Delivering? && p.phase.next <= |p.phase.targets| then |p.phase.targets| - p.phase.next else 0
  }

  /** Blocking puts cannot deadlock: from every reachable state, each publish call can be brought to its
      return by its own pieces and by consumers taking from the queues in its way. */
  lemma {:induction false} PublishCanReturn(b: Bus, id: Id) returns (more: seq<Action>)
    requires Inv(b) && id in b.publishers
    ensures id in Exec(b, more).publishers && Exec(b, more).publishers[id].Finished()
    ensures forall x :: x in more ==> x == Snapshot(id) || x == Put(id) || x.Get?
    decreases b.publishers[id].phase.Starting?, Remaining(b.publishers[id])
  {
    hide Inv, Exec;
    assert PublisherOk(b, id) by {
      InvGivesPublisher(b, id);
    }
    var p := b.publishers[id];
    if p.Finished() {
      more := [];
      assert Exec(b, more) == b by {
        NothingRun(b);
      }
    } else if p.phase.Starting? {
      var c := Step(b, Snapshot(id));
      StepKeepsInv(b, Snapshot(id));
      var rest := PublishCanReturn(c, id);
      ExecOne(b, Snapshot(id), rest);
      more := [Snapshot(id)] + rest;
    } else {
      var q := p.phase.targets[p.phase.next];
      if CanPut(b, id) {
        var c := Step(b, Put(id));
        StepKeepsInv(b, Put(id));
        var rest := PublishCanReturn(c, id);
        ExecOne(b, Put(id), rest);
        more := [Put(id)] + rest;
      } else {
        GetMakesRoom(b, id);
        var c := Step(b, Get(q));
        StepKeepsInv(b, Get(q));
        var d := Step(c, Put(id));
        StepKeepsInv(c, Put(id));
        var rest := PublishCanReturn(d, id);
        ExecOne(c, Put(id), rest);
        ExecOne(b, Get(q), [Put(id)] + rest);
        more := [Get(q)] + ([Put(id)] + rest);
      }
    }
  }

  lemma InvGivesPublisher(b: Bus, id: Id)
    requires Inv(b)
    ensures PublisherOk(b, id)
  {
  }

  lemma NothingRun(b: Bus)
    ensures Exec(b, []) == b
  {
  }

  // ----- The bus itself --------------------------------------------------------------------------

  /** `n` puts of one publisher in a row. */
  function Puts(id: Id, n: nat): seq<Action> {
    seq(n, i => Put(id))
  }

  lemma PutsNext(b: Bus, id: Id, n: nat)
    ensures Exec(b, Puts(id, n + 1)) == Step(Exec(b, Puts(id, n)), Put(id))
  {
    hide Step;
    assert Puts(id, n + 1)[..n] == Puts(id, n);
  }

  /** Whether every queue that a publish call still has to reach has room. */
  predicate HasRoom(b: Bus, id: Id) {
    id in b.publishers && b.publishers[id].phase.Delivering? ==>
      forall j :: b.publishers[id].phase.next <= j < |b.publishers[id].phase.targets| ==>
        var q := b.publishers[id].phase.targets[j];
        q in b.queues ==> !Full(b, q)
  }

  lemma PutKeepsRoom(b: Bus, id: Id)
    requires Inv(b) && CanPut(b, id)
    ensures HasRoom(Step(b, Put(id)), id) == HasRoom(b, id)
  {
    var c := Step(b, Put(id));
    var p := b.publishers[id];
    assert PublisherOk(b, id);
    forall j | p.phase.next < j < |p.phase.targets|
      ensures p.phase.targets[j] in b.queues && c.queues[p.phase.targets[j]] == b.queues[p.phase.targets[j]]
    {
      assert p.phase.targets[j] != p.phase.targets[p.phase.next];
    }
  }

  lemma RoomMeansNotBlocked(b: Bus, id: Id)
    requires id in b.publishers
    ensures b.publishers[id].Finished() ==> HasRoom(b, id)
    ensures Blocked(b, id) ==> !HasRoom(b, id)
  {
  }

  class InMemoryEventBus {
    const maxsize: int
    var subscribers: map<Stream, seq<nat>>
    var queues: map<nat, Queue>
    var publishers: map<Id, Publisher>

    constructor (maxsize: int := 1000)
      ensures this.maxsize == maxsize && subscribers == map[] && queues == map[] && publishers == map[]
      ensures View() == Empty(maxsize)
    {
      this.maxsize := maxsize;
      subscribers := map[];
      queues := map[];
      publishers := map[];
    }

    ghost function View(): Bus
      reads this
    {
      Bus(maxsize, subscribers, queues, publishers)
    }

    /** Create a queue and append it to its stream's list, under the lock. */
    method NewSubscriberQueue(q: nat, stream: Stream)
      requires q !in queues
      modifies this
      ensures View() == Step(old(View()), Subscribe(q, stream))
      ensures queues == old(queues)[q := Queue(stream, [], [], [])]
      ensures subscribers == old(subscribers)[stream := old(SubscribersOf(View(), stream)) + [q]]
    {
      queues := queues[q := Queue(stream, [], [], [])];
      var existing := if stream in subscribers then subscribers[stream] else [];
      subscribers := subscribers[stream := existing + [q]];
    }

    /** The next envelope of a subscription, or none while its queue is empty. */
    method Next(q: nat) returns (e: Option<Envelope>)
      requires q in queues
      modifies this
      ensures View() == Step(old(View()), Get(q))
      ensures e == if old(queues[q].buffer) == [] then None else Some(old(queues[q].buffer)[0])
      ensures e.Some? ==>
                && queues[q].taken == old(queues[q].taken) + [e.value]
                && queues[q].buffer == old(queues[q].buffer)[1..]
    {
      var queue := queues[q];
      if queue.buffer == [] {
        return None;
      }
      e := Some(queue.buffer[0]);
      queues := queues[q := Queue(queue.stream, queue.buffer[1..], queue.puts, queue.taken + [queue.buffer[0]])];
    }

    /** Go on with the puts of a publish call until it returns or its next queue is full. */
    method Deliver(id: Id) returns (n: nat)
      requires Inv(View()) && id in publishers && publishers[id].phase.Delivering?
      modifies this
      ensures Inv(View()) && View() == Exec(old(View()), Puts(id, n))
      ensures id in publishers && (publishers[id].Finished() || Blocked(View(), id))
      ensures publishers[id].Finished() <==> old(HasRoom(View(), id))
    {
      hide Inv, Exec, HasRoom;
      n := 0;
      assert Puts(id, 0) == [];
      NothingRun(View());
      InvGivesPublisher(View(), id);
      while publishers[id].phase.next < |publishers[id].phase.targets|
        invariant Inv(View()) && id in publishers && publishers[id].phase.Delivering? && PublisherOk(View(), id)
        invariant View() == Exec(old(View()), Puts(id, n))
        invariant HasRoom(View(), id) == old(HasRoom(View(), id))
        decreases |publishers[id].phase.targets| - publishers[id].phase.next
      {
        ghost var before := View();
        var p := publishers[id];
        var q := p.phase.targets[p.phase.next];
        var queue := queues[q];
        if 0 < maxsize <= |queue.buffer| {
          RoomMeansNotBlocked(before, id);
          return;
        }
        queues := queues[q := Queue(queue.stream, queue.buffer + [p.envelope], queue.puts + [p.envelope], queue.taken)];
        publishers := publishers[id := Publisher(p.envelope, Delivering(p.phase.targets, p.phase.next + 1))];
        assert View() == Step(before, Put(id));
        StepKeepsInv(before, Put(id));
        InvGivesPublisher(View(), id);
        PutKeepsRoom(before, id);
        PutsNext(old(View()), id, n);
        n := n + 1;
      }
      RoomMeansNotBlocked(View(), id);
    }

    /** A publish call up to its return or its first wait at a full queue. */
    method PublishNow(id: Id, stream: Stream, payload: string) returns (returned: bool, n: nat)
      requires Inv(View()) && id !in publishers
      modifies this
      ensures Inv(View())
      ensures View() == Exec(old(View()), [Publish(id, stream, payload), Snapshot(id)] + Puts(id, n))
      ensures id in publishers && publishers[id].envelope == Envelope(id, stream, payload)
      ensures returned <==> publishers[id].Finished()
      ensures !returned ==> Blocked(View(), id)
      ensures returned <==>
              forall q :: q in old(queues) && old(queues)[q].stream == stream ==>
                maxsize <= 0 || |old(queues)[q].buffer| < maxsize
    {
      ghost var start := View();
      var envelope := Envelope(id, stream, payload);
      publishers := publishers[id := Publisher(envelope, Starting)];
      assert View() == Step(start, Publish(id, stream, payload));
      StepKeepsInv(start, Publish(id, stream, payload));
      ghost var announced := View();
      var targets := if stream in subscribers then subscribers[stream] else [];
      publishers := publishers[id := Publisher(envelope, Delivering(targets, 0))];
      assert View() == Step(announced, Snapshot(id));
      StepKeepsInv(announced, Snapshot(id));
      ghost var snapped := View();
      n := Deliver(id);
      ExecGrows(snapped, Puts(id, n), 0, id);
      TwoThenPuts(start, Publish(id, stream, payload), Snapshot(id), Puts(id, n));
      returned := publishers[id].phase.next == |publishers[id].phase.targets|;
      AllSubscribersHaveRoom(start, snapped, id, stream);
    }
  }

  /** A bus made without a bound holds a thousand envelopes for each subscriber. */
  method DefaultBus() returns (bus: InMemoryEventBus)
    ensures bus.maxsize == 1000 && fresh(bus)
  {
    bus := new InMemoryEventBus();
  }

  lemma AllSubscribersHaveRoom(start: Bus, snapped: Bus, id: Id, stream: Stream)
    requires Inv(start) && snapped.queues == start.queues && snapped.maxsize == start.maxsize
    requires id in snapped.publishers && snapped.publishers[id].phase == Delivering(SubscribersOf(start, stream), 0)
    ensures HasRoom(snapped, id) <==>
            forall q :: q in start.queues && start.queues[q].stream == stream ==> !Full(start, q)
  {
    var targets := SubscribersOf(start, stream);
    assert TargetsOk(start, stream, targets);
    if HasRoom(snapped, id) {
      forall q | q in start.queues && start.queues[q].stream == stream
        ensures !Full(start, q)
      {
        assert q in targets;
        var j :| 0 <= j < |targets| && targets[j] == q;
      }
    }
  }

  lemma TwoThenPuts(b: Bus, first: Action, second: Action, more: seq<Action>)
    ensures Exec(b, [first, second] + more) == Exec(Step(Step(b, first), second), more)
  {
    hide Step;
    ExecConcat(b, [first, second], more);
    var es := [first, second];
    assert es[..1] == [first] && [first][..0] == [];
    assert Exec(b, []) == b;
    assert Exec(b, [first]) == Step(b, first);
    assert es[1] == second;
  }
}
