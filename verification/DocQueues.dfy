/** Per-document event queues that senders fill, workers drain and a cleaner closes when they are
    idle (services/websocket/server/queue.go, enqueue.go, cleanup.go and processor.go). */
module DocQueues {

  /** `idleTimeout` is config.IdleQueueTimeout and `capacity` config.QueueBufferSize. The other two
      bound the goroutines: how long after it was handed a queue a sender sends, and how long after
      reading the clock a new time of last use is stored. */
  datatype Config = Config(idleTimeout: nat, capacity: nat, sendWithin: nat, stampWithin: nat)

  /** A queue: its channel, whether that is closed, and the time of last use. `locked` is its mutex. */
  datatype Queue = Queue(doc: string, buffer: seq<nat>, closed: bool, lastUse: int, locked: bool)

  /** The queues, by address, and `incomingQueues`. */
  datatype Table = Table(mapped: map<string, nat>, queues: map<nat, Queue>)

  ghost predicate WellFormed(t: Table)
  {
    forall doc :: doc in t.mapped ==> t.mapped[doc] in t.queues
  }

  // ----- The operations on values -----

  /** `getOrCreateIncomingQueue`; `unused` is the address of a queue that it makes. */
  function HandedOut(t: Table, doc: string, unused: nat): nat
  {
    if doc in t.mapped then t.mapped[doc] else unused
  }

  function AfterObtain(t: Table, doc: string, unused: nat, now: int): Table
    requires doc in t.mapped ==> t.mapped[doc] in t.queues
  {
    if doc in t.mapped then
      t.(queues := t.queues[t.mapped[doc] := t.queues[t.mapped[doc]].(lastUse := now)])
    else
      Table(t.mapped[doc := unused], t.queues[unused := Queue(doc, [], false, now, false)])
  }

  function AfterSend(t: Table, q: nat, event: nat): Table
    requires q in t.queues
  {
    t.(queues := t.queues[q := t.queues[q].(buffer := t.queues[q].buffer + [event])])
  }

  function AfterStamp(t: Table, q: nat, at: int): Table
    requires q in t.queues
  {
    t.(queues := t.queues[q := t.queues[q].(lastUse := at)])
  }

  function AfterClose(t: Table, doc: string, q: nat): Table
    requires q in t.queues
  {
    Table(t.mapped - {doc}, t.queues[q := t.queues[q].(closed := true, locked := false)])
  }

  function SetLocked(t: Table, q: nat, locked: bool): Table
    requires q in t.queues
  {
    t.(queues := t.queues[q := t.queues[q].(locked := locked)])
  }

  /** What the cleaner removes at `now` when nothing runs beside it. */
  predicate Removable(config: Config, q: Queue, now: int)
  {
    now - q.lastUse > config.idleTimeout && !q.locked && q.buffer == []
  }

  ghost function Gone(config: Config, t: Table, docs: set<string>, now: int): set<string>
    requires WellFormed(t)
  {
    set doc | doc in docs && doc in t.mapped && Removable(config, t.queues[t.mapped[doc]], now)
  }

  /** The sweep over `docs`: the removable queues are closed and unmapped, the others untouched. */
  ghost function Swept(config: Config, t: Table, docs: set<string>, now: int): Table
    requires WellFormed(t)
  {
    var gone := Gone(config, t, docs, now);
    Table(t.mapped - gone,
          map q | q in t.queues ::
            if t.queues[q].doc in gone && t.mapped[t.queues[q].doc] == q then t.queues[q].(closed := true)
            else t.queues[q])
  }

  lemma SweepOne(config: Config, t: Table, docs: set<string>, doc: string, now: int)
    requires WellFormed(t) && doc in t.mapped && doc !in docs && t.queues[t.mapped[doc]].doc == doc
    ensures var q := t.mapped[doc];
      && doc in Swept(config, t, docs, now).mapped && q in Swept(config, t, docs, now).queues
      && Swept(config, t, docs, now).mapped[doc] == q
      && Swept(config, t, docs, now).queues[q] == t.queues[q]
      && Swept(config, t, docs + {doc}, now)
      == if Removable(config, t.queues[q], now) then AfterClose(Swept(config, t, docs, now), doc, q)
         else Swept(config, t, docs, now)
  {
    var q := t.mapped[doc];
    var gone, gone' := Gone(config, t, docs, now), Gone(config, t, docs + {doc}, now);
    if Removable(config, t.queues[q], now) {
      assert gone' == gone + {doc};
      assert t.mapped - gone' == (t.mapped - gone) - {doc};
    } else {
      assert gone' == gone;
    }
  }

  /** What the sweep does, in fields: a queue that was used in time, is locked or holds events stays as it
      is; any other is closed, and its document has none. */
  lemma SweepMeaning(config: Config, t: Table, docs: set<string>, now: int, doc: string)
    requires WellFormed(t) && doc in t.mapped && t.queues[t.mapped[doc]].doc == doc
    ensures var q, t' := t.mapped[doc], Swept(config, t, docs, now);
      var was := t.queues[q];
      if doc !in docs || now - was.lastUse <= config.idleTimeout || was.locked || was.buffer != []
      then doc in t'.mapped && t'.mapped[doc] == q && q in t'.queues && t'.queues[q] == was
      else doc !in t'.mapped && q in t'.queues && t'.queues[q] == was.(closed := true)
  {
  }

  lemma SweepAllMeaning(config: Config, t: Table, now: int)
    requires WellFormed(t) && forall doc :: doc in t.mapped ==> t.queues[t.mapped[doc]].doc == doc
    ensures var t' := Swept(config, t, t.mapped.Keys, now);
      && t'.mapped.Keys <= t.mapped.Keys && t'.queues.Keys == t.queues.Keys
      && forall doc :: doc in t.mapped ==>
           var q := t.mapped[doc];
           var was := t.queues[q];
           if now - was.lastUse <= config.idleTimeout || was.locked || was.buffer != []
           then doc in t'.mapped && t'.mapped[doc] == q && t'.queues[q] == was
           else doc !in t'.mapped && t'.queues[q] == was.(closed := true)
  {
    forall doc | doc in t.mapped
      ensures var q, t' := t.mapped[doc], Swept(config, t, t.mapped.Keys, now);
        var was := t.queues[q];
        if now - was.lastUse <= config.idleTimeout || was.locked || was.buffer != []
        then doc in t'.mapped && t'.mapped[doc] == q && t'.queues[q] == was
        else doc !in t'.mapped && t'.queues[q] == was.(closed := true)
    {
      SweepMeaning(config, t, t.mapped.Keys, now, doc);
    }
  }

  function StillActive(docs: map<string, int>, now: int, timeout: nat): map<string, int>
  {
    map doc | doc in docs && now - docs[doc] <= timeout :: docs[doc]
  }

  /** The subscriptions once all clients but those in `left` are pruned. */
  function Pruned(subs: map<string, map<string, int>>, left: set<string>, existing: set<string>, now: int, timeout: nat)
    : map<string, map<string, int>>
  {
    map client | client in subs && (client in left ||
                   (client in existing && StillActive(subs[client], now, timeout) != map[]))
      :: if client in left then subs[client] else StillActive(subs[client], now, timeout)
  }

  lemma PruneMeaning(subs: map<string, map<string, int>>, existing: set<string>, now: int, timeout: nat)
    ensures var left := Pruned(subs, {}, existing, now, timeout);
      && (forall client, doc ::
            client in left && doc in left[client] <==>
            && client in existing && client in subs && doc in subs[client] && now - subs[client][doc] <= timeout)
      && forall client :: client in left ==> left[client] != map[]
  {
    var left := Pruned(subs, {}, existing, now, timeout);
    forall client, doc
      ensures client in left && doc in left[client] <==>
        && client in existing && client in subs && doc in subs[client] && now - subs[client][doc] <= timeout
    {
      if client in subs && doc in subs[client] && now - subs[client][doc] <= timeout {
        assert doc in StillActive(subs[client], now, timeout);
      }
    }
  }

  lemma PruneOne(subs: map<string, map<string, int>>, left: set<string>, existing: set<string>, now: int, timeout: nat,
                 client: string)
    requires client in left && client in subs
    ensures var active, before := StillActive(subs[client], now, timeout), Pruned(subs, left, existing, now, timeout);
      && client in before && before[client] == subs[client]
      && Pruned(subs, left - {client}, existing, now, timeout)
         == if client in existing && active != map[] then before[client := active] else before - {client}
  {
  }

  // ----- The server, one goroutine at a time -----

  class Server {
    const config: Config
    var incomingQueues: map<string, nat>
    var heap: map<nat, Queue>
    var next: nat
    var activeSubscriptions: map<string, map<string, int>>

    constructor (config: Config)
      ensures this.config == config && Valid() && View() == Table(map[], map[]) && activeSubscriptions == map[]
    {
      this.config := config;
      incomingQueues, heap, next, activeSubscriptions := map[], map[], 0, map[];
    }

    function View(): Table
      reads this
    {
      Table(incomingQueues, heap)
    }

    /** Every document has a queue of its own, which is open, and open queues are mapped. */
    ghost predicate Valid()
      reads this
    {
      && (forall q :: q in heap ==> q < next)
      && (forall doc :: doc in incomingQueues ==>
            incomingQueues[doc] in heap && heap[incomingQueues[doc]].doc == doc && !heap[incomingQueues[doc]].closed)
      && (forall q :: q in heap && !heap[q].closed ==>
            heap[q].doc in incomingQueues && incomingQueues[heap[q].doc] == q)
    }

    method GetOrCreateIncomingQueue(docID: string, now: int) returns (q: nat)
      requires Valid()
      modifies `incomingQueues, `heap, `next
      ensures Valid() && q == HandedOut(old(View()), docID, old(next)) && q in heap
      ensures View() == AfterObtain(old(View()), docID, old(next), now)
    {
      if docID in incomingQueues {
        q := incomingQueues[docID];
        heap := heap[q := heap[q].(lastUse := now)];
        return;
      }
      q := next;
      next := next + 1;
      heap := heap[q := Queue(docID, [], false, now, false)];
      incomingQueues := incomingQueues[docID := q];
    }

    method EnqueueIncomingEvent(docID: string, event: nat, now: int, later: int) returns (accepted: bool)
      requires Valid()
      modifies `incomingQueues, `heap, `next
      ensures Valid()
      ensures var q, t := HandedOut(old(View()), docID, old(next)), AfterObtain(old(View()), docID, old(next), now);
        && (accepted <==> |t.queues[q].buffer| < config.capacity)
        && View() == if accepted then AfterStamp(AfterSend(t, q, event), q, later) else t
    {
      var q := GetOrCreateIncomingQueue(docID, now);
      if |heap[q].buffer| < config.capacity {
        heap := heap[q := heap[q].(buffer := heap[q].buffer + [event])];
        heap := heap[q := heap[q].(lastUse := later)];
        return true;
      } else {
        return false;
      }
    }

    /** The part of `processIncomingQueue` that empties the channel. */
    method DrainIncomingQueue(docID: string, now: int) returns (messages: seq<nat>)
      requires Valid()
      modifies `heap
      ensures Valid()
      ensures docID !in incomingQueues || old(heap)[incomingQueues[docID]].locked ==>
        messages == [] && View() == old(View())
      ensures docID in incomingQueues && !old(heap)[incomingQueues[docID]].locked ==>
        var q := incomingQueues[docID];
        && messages == old(heap)[q].buffer
        && heap == old(heap)[q := old(heap)[q].(buffer := [], lastUse := now)]
    {
      messages := [];
      if docID !in incomingQueues {
        return;
      }
      var q := incomingQueues[docID];
      if heap[q].locked {
        return;
      }
      heap := heap[q := heap[q].(locked := true)];
      while |heap[q].buffer| > 0
        invariant q in heap
        invariant messages + heap[q].buffer == old(heap)[q].buffer
        invariant heap == old(heap)[q := old(heap)[q].(buffer := heap[q].buffer, locked := true)]
        decreases |heap[q].buffer|
      {
        messages := messages + [heap[q].buffer[0]];
        heap := heap[q := heap[q].(buffer := heap[q].buffer[1..])];
      }
      heap := heap[q := heap[q].(lastUse := now)];
      heap := heap[q := heap[q].(locked := false)];
    }

    method CleanupIncomingQueues(now: int)
      requires Valid()
      modifies `incomingQueues, `heap
      ensures Valid() && View() == Swept(config, old(View()), old(incomingQueues).Keys, now)
      ensures incomingQueues.Keys <= old(incomingQueues).Keys && heap.Keys == old(heap).Keys
      ensures forall doc :: doc in old(incomingQueues) ==>
        var q := old(incomingQueues)[doc];
        var was := old(heap)[q];
        if now - was.lastUse <= config.idleTimeout || was.locked || was.buffer != []
        then doc in incomingQueues && incomingQueues[doc] == q && heap[q] == was
        else doc !in incomingQueues && heap[q] == was.(closed := true)
    {
      ghost var was := View();
      SweepQueues(now);
      SweepAllMeaning(config, was, now);
    }

    /** The loop over the queues. */
    method SweepQueues(now: int)
      requires Valid()
      modifies `incomingQueues, `heap
      ensures Valid() && View() == Swept(config, old(View()), old(incomingQueues).Keys, now)
    {
      ghost var was := View();
      assert Gone(config, was, {}, now) == {};
      var docs := incomingQueues.Keys;
      while docs != {}
        invariant Valid() && docs <= was.mapped.Keys
        invariant View() == Swept(config, was, was.mapped.Keys - docs, now)
        decreases docs
      {
        var docID :| docID in docs;
        SweepOne(config, was, was.mapped.Keys - docs, docID, now);
        assert was.mapped.Keys - (docs - {docID}) == was.mapped.Keys - docs + {docID};
        CleanupQueue(docID, now);
        docs := docs - {docID};
      }
      assert was.mapped.Keys - docs == was.mapped.Keys;
    }

    method CleanupQueue(docID: string, now: int)
      requires Valid() && docID in incomingQueues
      modifies `incomingQueues, `heap
      ensures Valid()
      ensures var q := old(incomingQueues)[docID];
        View() == if Removable(config, old(heap)[q], now) then AfterClose(old(View()), docID, q) else old(View())
    {
      var q := incomingQueues[docID];
      var idleTime := now - heap[q].lastUse;
      if idleTime > config.idleTimeout {
        if !heap[q].locked {
          heap := heap[q := heap[q].(locked := true)];
          if |heap[q].buffer| == 0 {
            heap := heap[q := heap[q].(closed := true)];
            incomingQueues := incomingQueues - {docID};
          }
          heap := heap[q := heap[q].(locked := false)];
        }
      }
    }

    /** The second half of the cleanup: subscriptions of clients that are gone, or that are stale. */
    method CleanupActiveSubscriptions(existing: set<string>, now: int, timeout: nat)
      modifies `activeSubscriptions
      ensures activeSubscriptions == Pruned(old(activeSubscriptions), {}, existing, now, timeout)
      ensures forall client, doc ::
        client in activeSubscriptions && doc in activeSubscriptions[client] <==>
        && client in existing && client in old(activeSubscriptions) && doc in old(activeSubscriptions)[client]
        && now - old(activeSubscriptions)[client][doc] <= timeout
      ensures forall client :: client in activeSubscriptions ==> activeSubscriptions[client] != map[]
    {
      ghost var was := activeSubscriptions;
      var clients := activeSubscriptions.Keys;
      assert activeSubscriptions == Pruned(was, clients, existing, now, timeout);
      while clients != {}
        invariant clients <= was.Keys
        invariant activeSubscriptions == Pruned(was, clients, existing, now, timeout)
        decreases clients
      {
        var clientID :| clientID in clients;
        PruneOne(was, clients, existing, now, timeout, clientID);
        clients := clients - {clientID};
        CleanupClient(clientID, existing, now, timeout);
      }
      PruneMeaning(was, existing, now, timeout);
    }

    method CleanupClient(clientID: string, existing: set<string>, now: int, timeout: nat)
      requires clientID in activeSubscriptions
      modifies `activeSubscriptions
      ensures var subs := old(activeSubscriptions);
        var active := StillActive(subs[clientID], now, timeout);
        activeSubscriptions ==
          if clientID in existing && active != map[] then subs[clientID := active] else subs - {clientID}
    {
      if clientID !in existing {
        activeSubscriptions := activeSubscriptions - {clientID};
        return;
      }
      var activeDocs := DropStale(activeSubscriptions[clientID], now, timeout);
      activeSubscriptions := activeSubscriptions[clientID := activeDocs];
      if |activeDocs| == 0 {
        activeSubscriptions := activeSubscriptions - {clientID};
        assert activeSubscriptions == old(activeSubscriptions) - {clientID};
      }
    }

    method DropStale(docs: map<string, int>, now: int, timeout: nat) returns (active: map<string, int>)
      ensures active == StillActive(docs, now, timeout)
    {
      active := docs;
      var left := docs.Keys;
      while left != {}
        invariant left <= docs.Keys
        invariant active == map doc | doc in docs && (doc in left || now - docs[doc] <= timeout) :: docs[doc]
        decreases left
      {
        var docID :| docID in left;
        left := left - {docID};
        var age := now - docs[docID];
        if age > timeout {
          active := active - {docID};
        }
      }
    }
  }

  // ----- Goroutines, interleaved -----

  datatype Sender =
    | Ready
    | Holding(q: nat, event: nat, since: int)  // has been handed the queue
    | Sent(q: nat, at: int)                    // has sent, and read the clock for the time of last use

  datatype Worker =
    | Waiting
    | Found(q: nat)              // has looked the queue up
    | Draining(q: nat)           // holds the mutex of the queue
    | Drained(q: nat, at: int)   // has emptied it, and read the clock
    | Stamped(q: nat)            // has stored the time of last use; the mutex is held until all is written

  /** The cleaner. In all phases but the first two it holds the lock on `incomingQueues`. */
  datatype Cleaner =
    | Asleep
    | Woken(now: int)
    | Sweeping(now: int)
    | Suspecting(now: int, doc: string)  // has found the queue of `doc` idle for too long
    | Judging(now: int, doc: string)     // and has its mutex
    | Closing(now: int, doc: string)     // and has seen it empty

  /** `accepted` and `taken` record, per document, the events that were sent and those that a worker took. */
  datatype World = World(
    table: Table, clock: int, senders: map<nat, Sender>, workers: map<nat, Worker>, cleaner: Cleaner,
    accepted: map<string, seq<nat>>, taken: map<string, seq<nat>>)

  datatype Step =
    | Tick
    | Obtain(sender: nat, doc: string, event: nat, unused: nat)
    | Send(sender: nat)
    | Stamp(sender: nat)
    | Find(worker: nat, doc: string)
    | Lock(worker: nat)
    | Take(worker: nat)
    | Spin(worker: nat)      // receives a zero value from a closed channel
    | EndDrain(worker: nat)  // finds an open channel empty
    | StampDrained(worker: nat)
    | Unlock(worker: nat)
    | Wake
    | Acquire
    | Suspect(doc: string)
    | TryLock
    | Judge
    | Close
    | Release

  /** The steps of the workers. */
  predicate WorkerActs(s: Step)
  {
    s.Find? || s.Lock? || s.Take? || s.Spin? || s.EndDrain? || s.StampDrained? || s.Unlock?
  }

  function SenderOf(w: World, s: nat): Sender
  {
    if s in w.senders then w.senders[s] else Ready
  }

  function WorkerOf(w: World, k: nat): Worker
  {
    if k in w.workers then w.workers[k] else Waiting
  }

  function Logged(log: map<string, seq<nat>>, doc: string): seq<nat>
  {
    if doc in log then log[doc] else []
  }

  predicate TableFree(w: World)
  {
    w.cleaner.Asleep? || w.cleaner.Woken?
  }

  predicate HasQueue(w: World, doc: string)
  {
    doc in w.table.mapped && w.table.mapped[doc] in w.table.queues
  }

  predicate IsSuspect(config: Config, w: World, doc: string)
  {
    && w.cleaner.Sweeping? && HasQueue(w, doc)
    && w.cleaner.now - w.table.queues[w.table.mapped[doc]].lastUse > config.idleTimeout
  }

  /** When a step can be taken. A sender is within its time bounds when it sends and when it stamps. */
  predicate Enabled(config: Config, w: World, s: Step)
  {
    match s
    case Tick => true
    case Obtain(i, doc, _, unused) =>
      && SenderOf(w, i).Ready? && TableFree(w) && unused !in w.table.queues
      && (doc in w.table.mapped ==> w.table.mapped[doc] in w.table.queues)
    case Send(i) =>
      var sender := SenderOf(w, i);
      sender.Holding? && sender.q in w.table.queues && w.clock <= sender.since + config.sendWithin
    case Stamp(i) =>
      var sender := SenderOf(w, i);
      sender.Sent? && sender.q in w.table.queues && w.clock <= sender.at + config.stampWithin
    case Find(k, doc) =>
      WorkerOf(w, k).Waiting? && TableFree(w) && HasQueue(w, doc)
    case Lock(k) =>
      var worker := WorkerOf(w, k);
      worker.Found? && worker.q in w.table.queues
    case Take(k) =>
      var worker := WorkerOf(w, k);
      worker.Draining? && worker.q in w.table.queues && w.table.queues[worker.q].buffer != []
    case Spin(k) =>
      var worker := WorkerOf(w, k);
      && worker.Draining? && worker.q in w.table.queues
      && w.table.queues[worker.q].buffer == [] && w.table.queues[worker.q].closed
    case EndDrain(k) =>
      var worker := WorkerOf(w, k);
      && worker.Draining? && worker.q in w.table.queues
      && w.table.queues[worker.q].buffer == [] && !w.table.queues[worker.q].closed
    case StampDrained(k) =>
      var worker := WorkerOf(w, k);
      worker.Drained? && worker.q in w.table.queues && w.clock <= worker.at + config.stampWithin
    case Unlock(k) =>
      var worker := WorkerOf(w, k);
      worker.Stamped? && worker.q in w.table.queues
    case Wake => w.cleaner.Asleep?
    case Acquire => w.cleaner.Woken?
    case Suspect(doc) => IsSuspect(config, w, doc)
    case TryLock => w.cleaner.Suspecting? && HasQueue(w, w.cleaner.doc)
    case Judge => w.cleaner.Judging? && HasQueue(w, w.cleaner.doc)
    case Close => w.cleaner.Closing? && HasQueue(w, w.cleaner.doc)
    case Release => w.cleaner.Sweeping?
  }

  /** A send on a closed channel, which panics. */
  predicate Panics(config: Config, w: World, s: Step)
  {
    s.Send? && Enabled(config, w, s) && w.table.queues[SenderOf(w, s.sender).q].closed
  }

  function Next(config: Config, w: World, s: Step): World
    requires Enabled(config, w, s) && !Panics(config, w, s)
  {
    match s
    case Tick => w.(clock := w.clock + 1)
    case Obtain(i, doc, event, unused) =>
      w.(table := AfterObtain(w.table, doc, unused, w.clock),
         senders := w.senders[i := Holding(HandedOut(w.table, doc, unused), event, w.clock)])
    case Send(i) =>
      var h := SenderOf(w, i);
      var q := w.table.queues[h.q];
      if |q.buffer| < config.capacity then
        w.(table := AfterSend(w.table, h.q, h.event),
           senders := w.senders[i := Sent(h.q, w.clock)],
           accepted := w.accepted[q.doc := Logged(w.accepted, q.doc) + [h.event]])
      else w.(senders := w.senders[i := Ready])
    case Stamp(i) =>
      w.(table := AfterStamp(w.table, SenderOf(w, i).q, SenderOf(w, i).at), senders := w.senders[i := Ready])
    case Find(k, doc) => w.(workers := w.workers[k := Found(w.table.mapped[doc])])
    case Lock(k) =>
      var q := WorkerOf(w, k).q;
      if w.table.queues[q].locked then w.(workers := w.workers[k := Waiting])
      else w.(table := SetLocked(w.table, q, true), workers := w.workers[k := Draining(q)])
    case Take(k) =>
      var q := WorkerOf(w, k).q;
      var was := w.table.queues[q];
      w.(table := w.table.(queues := w.table.queues[q := was.(buffer := was.buffer[1..])]),
         taken := w.taken[was.doc := Logged(w.taken, was.doc) + [was.buffer[0]]])
    case Spin(_) => w
    case EndDrain(k) => w.(workers := w.workers[k := Drained(WorkerOf(w, k).q, w.clock)])
    case StampDrained(k) =>
      var worker := WorkerOf(w, k);
      w.(table := AfterStamp(w.table, worker.q, worker.at), workers := w.workers[k := Stamped(worker.q)])
    case Unlock(k) =>
      w.(table := SetLocked(w.table, WorkerOf(w, k).q, false), workers := w.workers[k := Waiting])
    case Wake => w.(cleaner := Woken(w.clock))
    case Acquire => w.(cleaner := Sweeping(w.cleaner.now))
    case Suspect(doc) => w.(cleaner := Suspecting(w.cleaner.now, doc))
    case TryLock =>
      var q := w.table.mapped[w.cleaner.doc];
      if w.table.queues[q].locked then w.(cleaner := Sweeping(w.cleaner.now))
      else w.(table := SetLocked(w.table, q, true), cleaner := Judging(w.cleaner.now, w.cleaner.doc))
    case Judge =>
      var q := w.table.mapped[w.cleaner.doc];
      if w.table.queues[q].buffer == [] then w.(cleaner := Closing(w.cleaner.now, w.cleaner.doc))
      else w.(table := SetLocked(w.table, q, false), cleaner := Sweeping(w.cleaner.now))
    case Close =>
      w.(table := AfterClose(w.table, w.cleaner.doc, w.table.mapped[w.cleaner.doc]), cleaner := Sweeping(w.cleaner.now))
    case Release => w.(cleaner := Asleep)
  }

  const START := World(Table(map[], map[]), 0, map[], map[], Asleep, map[], map[])

  /** The states that a run passes through. It stops before a step that panics. */
  ghost predicate Run(config: Config, ws: seq<World>, ss: seq<Step>)
  {
    && |ws| == |ss| + 1 && ws[0] == START
    && forall i :: 0 <= i < |ss| ==>
         Enabled(config, ws[i], ss[i]) && !Panics(config, ws[i], ss[i]) && ws[i + 1] == Next(config, ws[i], ss[i])
  }

  // ----- The sweep, as the cleaner takes it -----

  /** The visit to one queue: the cleaner passes over it, or finds it idle, tries its mutex, and then
      closes it or lets go of it, with no other step in between. */
  function Visit(config: Config, w: World, doc: string): World
    requires w.cleaner.Sweeping?
  {
    if !IsSuspect(config, w, doc) then w
    else
      var suspected := Next(config, w, Suspect(doc));
      var tried := Next(config, suspected, TryLock);
      if !tried.cleaner.Judging? then tried
      else
        var judged := Next(config, tried, Judge);
        if !judged.cleaner.Closing? then judged else Next(config, judged, Close)
  }

  lemma VisitSweepsOne(config: Config, w: World, doc: string)
    requires w.cleaner.Sweeping? && HasQueue(w, doc)
    ensures var q, now := w.table.mapped[doc], w.cleaner.now;
      Visit(config, w, doc)
      == w.(table := if Removable(config, w.table.queues[q], now) then AfterClose(w.table, doc, q) else w.table)
  {
    var q := w.table.mapped[doc];
    if IsSuspect(config, w, doc) && !w.table.queues[q].locked {
      VisitUnlocked(config, w, doc);
    }
  }

  lemma VisitUnlocked(config: Config, w: World, doc: string)
    requires IsSuspect(config, w, doc) && !w.table.queues[w.table.mapped[doc]].locked
    ensures var q := w.table.mapped[doc];
      Visit(config, w, doc)
      == w.(table := if w.table.queues[q].buffer == [] then AfterClose(w.table, doc, q) else w.table)
  {
    var q, now := w.table.mapped[doc], w.cleaner.now;
    var locked := SetLocked(w.table, q, true);
    var tried := w.(table := locked, cleaner := Judging(now, doc));
    assert Next(config, Next(config, w, Suspect(doc)), TryLock) == tried;
    assert SetLocked(locked, q, false) == w.table;
    assert AfterClose(locked, doc, q) == AfterClose(w.table, doc, q);
  }

  function VisitAll(config: Config, w: World, docs: seq<string>): World
    requires w.cleaner.Sweeping?
    decreases |docs|
  {
    if docs == [] then w
    else
      var w' := Visit(config, w, docs[0]);
      if w'.cleaner.Sweeping? then VisitAll(config, w', docs[1..]) else w'
  }

  lemma SetOfCons(docs: seq<string>)
    requires docs != []
    ensures (set d | d in docs) == {docs[0]} + (set d | d in docs[1..])
  {
    assert forall d :: d in docs <==> d == docs[0] || d in docs[1..];
  }

  /** So the sweep on its own and the cleaner's steps with nothing between them do the same, in whatever
      order the cleaner meets the queues. */
  lemma {:induction false} SweepIsInterleaved(config: Config, w: World, t: Table, done: set<string>, docs: seq<string>)
    requires w.cleaner.Sweeping? && WellFormed(t) && w.table == Swept(config, t, done, w.cleaner.now)
    requires forall doc :: doc in t.mapped ==> t.queues[t.mapped[doc]].doc == doc
    requires forall i :: 0 <= i < |docs| ==> docs[i] in t.mapped && docs[i] !in done
    requires forall i, j :: 0 <= i < j < |docs| ==> docs[i] != docs[j]
    ensures VisitAll(config, w, docs)
         == w.(table := Swept(config, t, done + (set doc | doc in docs), w.cleaner.now))
    decreases |docs|
  {
    if docs == [] {
      assert done + (set doc | doc in docs) == done;
    } else {
      var doc, now := docs[0], w.cleaner.now;
      SweepOne(config, t, done, doc, now);
      VisitSweepsOne(config, w, doc);
      var w' := Visit(config, w, doc);
      assert w' == w.(table := Swept(config, t, done + {doc}, now));
      SweepIsInterleaved(config, w', t, done + {doc}, docs[1..]);
      SetOfCons(docs);
      assert (done + {doc}) + (set d | d in docs[1..]) == done + (set d | d in docs);
    }
  }

  lemma SweepIsVisits(config: Config, w: World, docs: seq<string>)
    requires w.cleaner.Sweeping? && WellFormed(w.table)
    requires forall doc :: doc in w.table.mapped ==> w.table.queues[w.table.mapped[doc]].doc == doc
    requires (set doc | doc in docs) == w.table.mapped.Keys
    requires forall i, j :: 0 <= i < j < |docs| ==> docs[i] != docs[j]
    ensures VisitAll(config, w, docs) == w.(table := Swept(config, w.table, w.table.mapped.Keys, w.cleaner.now))
  {
    assert Gone(config, w.table, {}, w.cleaner.now) == {};
    assert w.table == Swept(config, w.table, {}, w.cleaner.now);
    assert forall i :: 0 <= i < |docs| ==> docs[i] in (set doc | doc in docs);
    SweepIsInterleaved(config, w, w.table, {}, docs);
    assert {} + (set doc | doc in docs) == w.table.mapped.Keys;
  }

  // ----- What every run keeps -----

  ghost predicate TableOk(w: World)
  {
    && (forall doc :: doc in w.table.mapped ==>
          && w.table.mapped[doc] in w.table.queues
          && w.table.queues[w.table.mapped[doc]].doc == doc && !w.table.queues[w.table.mapped[doc]].closed)
    && (forall q :: q in w.table.queues && !w.table.queues[q].closed ==>
          w.table.queues[q].doc in w.table.mapped && w.table.mapped[w.table.queues[q].doc] == q)
    && (forall q :: q in w.table.queues && w.table.queues[q].closed ==> w.table.queues[q].buffer == [])
    && (forall i :: i in w.senders && !w.senders[i].Ready? ==> w.senders[i].q in w.table.queues)
    && (forall k :: k in w.workers && !w.workers[k].Waiting? ==> w.workers[k].q in w.table.queues)
  }

  function Pending(w: World, doc: string): seq<nat>
    requires doc in w.table.mapped ==> w.table.mapped[doc] in w.table.queues
  {
    if doc in w.table.mapped then w.table.queues[w.table.mapped[doc]].buffer else []
  }

  /** Per document, what was accepted is what was taken, followed by what is pending. */
  ghost predicate Conserved(w: World)
    requires TableOk(w)
  {
    forall doc :: Logged(w.accepted, doc) == Logged(w.taken, doc) + Pending(w, doc)
  }

  /** The time of last use of an open queue lags the moment a holder was handed it by at most the
      stamp bound; the holders of a closed queue are out of time. */
  ghost predicate HolderOk(config: Config, w: World, i: nat)
    requires i in w.senders && w.senders[i].Holding? && w.senders[i].q in w.table.queues
  {
    var h := w.senders[i];
    && h.since <= w.clock
    && if w.table.queues[h.q].closed then h.since + config.sendWithin < w.clock
       else h.since <= w.table.queues[h.q].lastUse + config.stampWithin
  }

  ghost predicate OutOfTime(config: Config, w: World, doc: string, now: int)
  {
    forall i ::
      i in w.senders && w.senders[i].Holding? && doc in w.table.mapped && w.senders[i].q == w.table.mapped[doc] ==>
        w.senders[i].since + config.sendWithin < now
  }

  ghost predicate CleanerOk(config: Config, w: World)
    requires TableOk(w)
  {
    match w.cleaner
    case Asleep => true
    case Woken(now) => now <= w.clock
    case Sweeping(now) => now <= w.clock
    case Suspecting(now, doc) => now <= w.clock && doc in w.table.mapped && OutOfTime(config, w, doc, now)
    case Judging(now, doc) => now <= w.clock && doc in w.table.mapped && OutOfTime(config, w, doc, now)
    case Closing(now, doc) =>
      now <= w.clock && doc in w.table.mapped && OutOfTime(config, w, doc, now) && Pending(w, doc) == []
  }

  ghost predicate Inv(config: Config, w: World)
  {
    && TableOk(w) && Conserved(w) && CleanerOk(config, w)
    && (forall i :: i in w.senders && w.senders[i].Holding? ==> HolderOk(config, w, i))
    && (forall i :: i in w.senders && w.senders[i].Sent? ==> w.senders[i].at <= w.clock)
    && (forall k :: k in w.workers && w.workers[k].Drained? ==> w.workers[k].at <= w.clock)
  }

  ghost predicate Timely(config: Config)
  {
    config.sendWithin + config.stampWithin <= config.idleTimeout
  }

  lemma NoPanic(config: Config, w: World, s: Step)
    requires Inv(config, w)
    ensures !Panics(config, w, s)
  {
    if s.Send? && s.sender in w.senders && w.senders[s.sender].Holding? {
      assert HolderOk(config, w, s.sender);
    }
  }

  lemma SenderMoves(config: Config, w: World, i: nat, sender: Sender)
    requires Inv(config, w) && (sender.Ready? || (sender.Sent? && sender.q in w.table.queues && sender.at <= w.clock))
    ensures Inv(config, w.(senders := w.senders[i := sender]))
  {
    var w' := w.(senders := w.senders[i := sender]);
    assert TableOk(w') && CleanerOk(config, w');
    forall j | j in w'.senders && w'.senders[j].Holding?
      ensures HolderOk(config, w', j)
    {
      assert HolderOk(config, w, j);
    }
    forall doc
      ensures Pending(w', doc) == Pending(w, doc)
    {
    }
  }

  lemma CleanerMoves(config: Config, w: World, cleaner: Cleaner)
    requires Inv(config, w) && TableOk(w.(cleaner := cleaner)) && CleanerOk(config, w.(cleaner := cleaner))
    ensures Inv(config, w.(cleaner := cleaner))
  {
    var w' := w.(cleaner := cleaner);
    forall j | j in w'.senders && w'.senders[j].Holding?
      ensures HolderOk(config, w', j)
    {
      assert HolderOk(config, w, j);
    }
    forall doc
      ensures Pending(w', doc) == Pending(w, doc)
    {
    }
  }

  function WithBuffer(t: Table, q: nat, buffer: seq<nat>): Table
    requires q in t.queues
  {
    t.(queues := t.queues[q := t.queues[q].(buffer := buffer)])
  }

  lemma BufferKeepsTable(w: World, q: nat, buffer: seq<nat>)
    requires TableOk(w) && q in w.table.queues && !w.table.queues[q].closed
    ensures var w' := w.(table := WithBuffer(w.table, q, buffer));
      TableOk(w') && forall doc :: Pending(w', doc) == if doc == w.table.queues[q].doc then buffer else Pending(w, doc)
  {
  }

  /** The buffer of an open queue changes together with what is recorded for its document. */
  lemma BufferKeepsInv(config: Config, w: World, q: nat, buffer: seq<nat>, accepted: map<string, seq<nat>>,
                       taken: map<string, seq<nat>>)
    requires Inv(config, w) && q in w.table.queues && !w.table.queues[q].closed
    requires w.cleaner.Closing? ==> w.cleaner.doc != w.table.queues[q].doc
    requires var d := w.table.queues[q].doc;
      && Logged(accepted, d) == Logged(taken, d) + buffer
      && forall doc :: doc != d ==>
           Logged(accepted, doc) == Logged(w.accepted, doc) && Logged(taken, doc) == Logged(w.taken, doc)
    ensures Inv(config, w.(table := WithBuffer(w.table, q, buffer), accepted := accepted, taken := taken))
  {
    var w' := w.(table := WithBuffer(w.table, q, buffer), accepted := accepted, taken := taken);
    BufferKeepsTable(w, q, buffer);
    assert TableOk(w');
    forall doc
      ensures Logged(w'.accepted, doc) == Logged(w'.taken, doc) + Pending(w', doc)
    {
      assert Logged(w.accepted, doc) == Logged(w.taken, doc) + Pending(w, doc);
    }
    forall j | j in w'.senders && w'.senders[j].Holding?
      ensures HolderOk(config, w', j)
    {
      assert HolderOk(config, w, j);
    }
  }

  /** An event is added to an open queue that the cleaner has not found empty. */
  lemma AppendingKeepsInv(config: Config, w: World, q: nat, event: nat)
    requires Inv(config, w) && q in w.table.queues && !w.table.queues[q].closed
    requires w.cleaner.Closing? ==> w.cleaner.doc != w.table.queues[q].doc
    ensures var doc := w.table.queues[q].doc;
      Inv(config, w.(table := AfterSend(w.table, q, event),
                     accepted := w.accepted[doc := Logged(w.accepted, doc) + [event]]))
  {
    var d, buffer := w.table.queues[q].doc, w.table.queues[q].buffer;
    assert Logged(w.accepted, d) == Logged(w.taken, d) + Pending(w, d);
    assert Logged(w.accepted, d) + [event] == Logged(w.taken, d) + (buffer + [event]);
    BufferKeepsInv(config, w, q, buffer + [event], w.accepted[d := Logged(w.accepted, d) + [event]], w.taken);
  }

  lemma SendKeepsInv(config: Config, w: World, s: Step)
    requires Timely(config) && Inv(config, w) && s.Send? && Enabled(config, w, s) && !Panics(config, w, s)
    ensures Inv(config, Next(config, w, s))
  {
    var i, h := s.sender, SenderOf(w, s.sender);
    var q := w.table.queues[h.q];
    assert HolderOk(config, w, i);
    if |q.buffer| < config.capacity {
      AppendingKeepsInv(config, w, h.q, h.event);
      var w1 := w.(table := AfterSend(w.table, h.q, h.event),
                   accepted := w.accepted[q.doc := Logged(w.accepted, q.doc) + [h.event]]);
      SenderMoves(config, w1, i, Sent(h.q, w.clock));
    } else {
      SenderMoves(config, w, i, Ready);
    }
  }

  lemma TakeKeepsInv(config: Config, w: World, s: Step)
    requires Timely(config) && Inv(config, w) && s.Take? && Enabled(config, w, s) && !Panics(config, w, s)
    ensures Inv(config, Next(config, w, s))
  {
    var q := WorkerOf(w, s.worker).q;
    var d, buffer := w.table.queues[q].doc, w.table.queues[q].buffer;
    assert !w.table.queues[q].closed;
    assert Logged(w.accepted, d) == Logged(w.taken, d) + Pending(w, d);
    assert buffer == [buffer[0]] + buffer[1..];
    assert Logged(w.taken, d) + buffer == (Logged(w.taken, d) + [buffer[0]]) + buffer[1..];
    BufferKeepsInv(config, w, q, buffer[1..], w.accepted, w.taken[d := Logged(w.taken, d) + [buffer[0]]]);
  }

  lemma LockingKeepsInv(config: Config, w: World, q: nat, locked: bool)
    requires Inv(config, w) && q in w.table.queues
    ensures Inv(config, w.(table := SetLocked(w.table, q, locked)))
  {
    var w' := w.(table := SetLocked(w.table, q, locked));
    assert TableOk(w');
    forall doc
      ensures Pending(w', doc) == Pending(w, doc)
    {
    }
    assert CleanerOk(config, w');
    forall j | j in w'.senders && w'.senders[j].Holding?
      ensures HolderOk(config, w', j)
    {
      assert HolderOk(config, w, j);
    }
  }

  lemma WorkerMoves(config: Config, w: World, k: nat, worker: Worker)
    requires Inv(config, w)
    requires !worker.Waiting? ==> worker.q in w.table.queues && (worker.Drained? ==> worker.at <= w.clock)
    ensures Inv(config, w.(workers := w.workers[k := worker]))
  {
    var w' := w.(workers := w.workers[k := worker]);
    assert TableOk(w');
    forall doc
      ensures Pending(w', doc) == Pending(w, doc)
    {
    }
    forall j | j in w'.senders && w'.senders[j].Holding?
      ensures HolderOk(config, w', j)
    {
      assert HolderOk(config, w, j);
    }
  }

  /** A sender is handed a queue whose time of last use is now; the cleaner holds no lock. */
  lemma SenderHolds(config: Config, w: World, i: nat, q: nat, event: nat)
    requires Inv(config, w) && TableFree(w)
    requires q in w.table.queues && !w.table.queues[q].closed && w.table.queues[q].lastUse == w.clock
    ensures Inv(config, w.(senders := w.senders[i := Holding(q, event, w.clock)]))
  {
    var w' := w.(senders := w.senders[i := Holding(q, event, w.clock)]);
    assert TableOk(w');
    forall doc
      ensures Pending(w', doc) == Pending(w, doc)
    {
    }
    forall j | j in w'.senders && w'.senders[j].Holding?
      ensures HolderOk(config, w', j)
    {
      assert j != i ==> HolderOk(config, w, j);
    }
  }

  /** The time of last use is set to a moment that the stamp bound still reaches. */
  lemma StampingKeepsInv(config: Config, w: World, q: nat, at: int)
    requires Inv(config, w) && q in w.table.queues && w.clock <= at + config.stampWithin
    ensures Inv(config, w.(table := AfterStamp(w.table, q, at)))
  {
    var w' := w.(table := AfterStamp(w.table, q, at));
    assert TableOk(w');
    forall doc
      ensures Pending(w', doc) == Pending(w, doc)
    {
    }
    assert CleanerOk(config, w');
    forall j | j in w'.senders && w'.senders[j].Holding?
      ensures HolderOk(config, w', j)
    {
      assert HolderOk(config, w, j);
    }
  }

  lemma NewQueueKeepsInv(config: Config, w: World, doc: string, unused: nat)
    requires Inv(config, w) && TableFree(w) && doc !in w.table.mapped && unused !in w.table.queues
    ensures Inv(config, w.(table := AfterObtain(w.table, doc, unused, w.clock)))
  {
    var w' := w.(table := AfterObtain(w.table, doc, unused, w.clock));
    assert TableOk(w');
    forall d
      ensures Pending(w', d) == Pending(w, d)
    {
    }
    forall j | j in w'.senders && w'.senders[j].Holding?
      ensures HolderOk(config, w', j)
    {
      assert HolderOk(config, w, j);
    }
  }

  lemma ObtainKeepsInv(config: Config, w: World, s: Step)
    requires Timely(config) && Inv(config, w) && s.Obtain? && Enabled(config, w, s) && !Panics(config, w, s)
    ensures Inv(config, Next(config, w, s))
  {
    if s.doc in w.table.mapped {
      StampingKeepsInv(config, w, w.table.mapped[s.doc], w.clock);
    } else {
      NewQueueKeepsInv(config, w, s.doc, s.unused);
    }
    var w' := w.(table := AfterObtain(w.table, s.doc, s.unused, w.clock));
    SenderHolds(config, w', s.sender, HandedOut(w.table, s.doc, s.unused), s.event);
  }

  lemma StampKeepsInv(config: Config, w: World, s: Step)
    requires Timely(config) && Inv(config, w) && s.Stamp? && Enabled(config, w, s) && !Panics(config, w, s)
    ensures Inv(config, Next(config, w, s))
  {
    var sender := SenderOf(w, s.sender);
    StampingKeepsInv(config, w, sender.q, sender.at);
    SenderMoves(config, w.(table := AfterStamp(w.table, sender.q, sender.at)), s.sender, Ready);
  }

  lemma WorkerKeepsInv(config: Config, w: World, s: Step)
    requires Timely(config) && Inv(config, w) && Enabled(config, w, s) && !Panics(config, w, s)
    requires s.Find? || s.Lock? || s.EndDrain? || s.StampDrained? || s.Unlock?
    ensures Inv(config, Next(config, w, s))
  {
    match s {
      case Find(k, doc) =>
        WorkerMoves(config, w, k, Found(w.table.mapped[doc]));
      case Lock(k) =>
        var q := WorkerOf(w, k).q;
        if w.table.queues[q].locked {
          WorkerMoves(config, w, k, Waiting);
        } else {
          LockingKeepsInv(config, w, q, true);
          WorkerMoves(config, w.(table := SetLocked(w.table, q, true)), k, Draining(q));
        }
      case EndDrain(k) =>
        WorkerMoves(config, w, k, Drained(WorkerOf(w, k).q, w.clock));
      case StampDrained(k) =>
        var worker := WorkerOf(w, k);
        StampingKeepsInv(config, w, worker.q, worker.at);
        WorkerMoves(config, w.(table := AfterStamp(w.table, worker.q, worker.at)), k, Stamped(worker.q));
      case Unlock(k) =>
        var q := WorkerOf(w, k).q;
        LockingKeepsInv(config, w, q, false);
        WorkerMoves(config, w.(table := SetLocked(w.table, q, false)), k, Waiting);
    }
  }

  lemma TickKeepsInv(config: Config, w: World)
    requires Inv(config, w)
    ensures Inv(config, w.(clock := w.clock + 1))
  {
    var w' := w.(clock := w.clock + 1);
    assert TableOk(w');
    forall doc
      ensures Pending(w', doc) == Pending(w, doc)
    {
    }
    forall j | j in w'.senders && w'.senders[j].Holding?
      ensures HolderOk(config, w', j)
    {
      assert HolderOk(config, w, j);
    }
  }

  lemma QuietKeepsInv(config: Config, w: World, s: Step)
    requires Timely(config) && Inv(config, w)
    requires (s.Tick? || s.Wake? || s.Acquire? || s.Release?) && Enabled(config, w, s)
    ensures Inv(config, Next(config, w, s))
  {
    match s {
      case Tick => TickKeepsInv(config, w);
      case Wake => CleanerMoves(config, w, Woken(w.clock));
      case Acquire => CleanerMoves(config, w, Sweeping(w.cleaner.now));
      case Release => CleanerMoves(config, w, Asleep);
    }
  }

  lemma SuspectKeepsInv(config: Config, w: World, s: Step)
    requires Timely(config) && Inv(config, w) && s.Suspect? && Enabled(config, w, s) && !Panics(config, w, s)
    ensures Inv(config, Next(config, w, s))
  {
    var c := Suspecting(w.cleaner.now, s.doc);
    assert forall i :: i in w.senders && w.senders[i].Holding? ==> HolderOk(config, w, i);
    CleanerMoves(config, w, c);
  }

  lemma TryLockKeepsInv(config: Config, w: World, s: Step)
    requires Timely(config) && Inv(config, w) && s.TryLock? && Enabled(config, w, s) && !Panics(config, w, s)
    ensures Inv(config, Next(config, w, s))
  {
    var q, now, doc := w.table.mapped[w.cleaner.doc], w.cleaner.now, w.cleaner.doc;
    if w.table.queues[q].locked {
      CleanerMoves(config, w, Sweeping(now));
    } else {
      LockingKeepsInv(config, w, q, true);
      CleanerMoves(config, w.(table := SetLocked(w.table, q, true)), Judging(now, doc));
    }
  }

  lemma JudgeKeepsInv(config: Config, w: World, s: Step)
    requires Timely(config) && Inv(config, w) && s.Judge? && Enabled(config, w, s) && !Panics(config, w, s)
    ensures Inv(config, Next(config, w, s))
  {
    var q, now, doc := w.table.mapped[w.cleaner.doc], w.cleaner.now, w.cleaner.doc;
    if w.table.queues[q].buffer == [] {
      CleanerMoves(config, w, Closing(now, doc));
    } else {
      LockingKeepsInv(config, w, q, false);
      CleanerMoves(config, w.(table := SetLocked(w.table, q, false)), Sweeping(now));
    }
  }

  lemma CloseKeepsTable(w: World, w': World, doc: string)
    requires TableOk(w) && doc in w.table.mapped && Pending(w, doc) == []
    requires w' == w.(table := AfterClose(w.table, doc, w.table.mapped[doc]), cleaner := w'.cleaner)
    ensures TableOk(w') && forall d :: Pending(w', d) == Pending(w, d)
  {
  }

  lemma CloseKeepsInv(config: Config, w: World, s: Step)
    requires Timely(config) && Inv(config, w) && s.Close? && Enabled(config, w, s) && !Panics(config, w, s)
    ensures Inv(config, Next(config, w, s))
  {
    var w' := Next(config, w, s);
    CloseKeepsTable(w, w', w.cleaner.doc);
    forall j | j in w'.senders && w'.senders[j].Holding?
      ensures HolderOk(config, w', j)
    {
      assert HolderOk(config, w, j);
    }
  }

  lemma StepKeepsInv(config: Config, w: World, s: Step)
    requires Timely(config) && Inv(config, w) && Enabled(config, w, s) && !Panics(config, w, s)
    ensures Inv(config, Next(config, w, s))
  {
    match s {
      case Obtain(_, _, _, _) => ObtainKeepsInv(config, w, s);
      case Send(_) => SendKeepsInv(config, w, s);
      case Stamp(_) => StampKeepsInv(config, w, s);
      case Find(_, _) => WorkerKeepsInv(config, w, s);
      case Lock(_) => WorkerKeepsInv(config, w, s);
      case Spin(_) =>
      case Take(_) => TakeKeepsInv(config, w, s);
      case EndDrain(_) => WorkerKeepsInv(config, w, s);
      case StampDrained(_) => WorkerKeepsInv(config, w, s);
      case Unlock(_) => WorkerKeepsInv(config, w, s);
      case Suspect(_) => SuspectKeepsInv(config, w, s);
      case TryLock => TryLockKeepsInv(config, w, s);
      case Judge => JudgeKeepsInv(config, w, s);
      case Close => CloseKeepsInv(config, w, s);
      case _ => QuietKeepsInv(config, w, s);
    }
  }

  lemma {:induction false} RunsKeepInv(config: Config, ws: seq<World>, ss: seq<Step>, n: nat)
    requires Timely(config) && Run(config, ws, ss) && n < |ws|
    ensures Inv(config, ws[n])
  {
    if n > 0 {
      RunsKeepInv(config, ws, ss, n - 1);
      StepKeepsInv(config, ws[n - 1], ss[n - 1]);
    }
  }

  /** Over every run: an event that was reported accepted waits in an open queue that is mapped for
      its document, until it is taken, and events of a document are taken in the order in which
      they were accepted. */
  lemma AcceptedEventsSurvive(config: Config, ws: seq<World>, ss: seq<Step>, n: nat, doc: string)
    requires Timely(config) && Run(config, ws, ss) && n < |ws|
    ensures Logged(ws[n].taken, doc) <= Logged(ws[n].accepted, doc)
    ensures Logged(ws[n].taken, doc) != Logged(ws[n].accepted, doc) ==>
      && doc in ws[n].table.mapped && ws[n].table.mapped[doc] in ws[n].table.queues
      && var q := ws[n].table.queues[ws[n].table.mapped[doc]];
         !q.closed && Logged(ws[n].accepted, doc) == Logged(ws[n].taken, doc) + q.buffer
  {
    RunsKeepInv(config, ws, ss, n);
    var w := ws[n];
    assert Logged(w.accepted, doc) == Logged(w.taken, doc) + Pending(w, doc);
  }

  ghost predicate Fits(config: Config, w: World)
  {
    forall q :: q in w.table.queues ==> |w.table.queues[q].buffer| <= config.capacity
  }

  lemma WorkerKeepsFit(config: Config, w: World, s: Step)
    requires Fits(config, w) && Enabled(config, w, s)
    requires WorkerActs(s)
    ensures Fits(config, Next(config, w, s))
  {
  }

  lemma StepKeepsFit(config: Config, w: World, s: Step)
    requires Fits(config, w) && Enabled(config, w, s) && !Panics(config, w, s)
    ensures Fits(config, Next(config, w, s))
  {
    if WorkerActs(s) {
      WorkerKeepsFit(config, w, s);
    }
  }

  /** In every interleaving no buffer holds more than its channel's capacity. */
  lemma {:induction false} BuffersFit(config: Config, ws: seq<World>, ss: seq<Step>, n: nat)
    requires Run(config, ws, ss) && n < |ws|
    ensures Fits(config, ws[n])
  {
    if n > 0 {
      BuffersFit(config, ws, ss, n - 1);
      StepKeepsFit(config, ws[n - 1], ss[n - 1]);
    }
  }

  // ----- Mutual exclusion -----

  /** A worker that holds the mutex of its queue. */
  predicate Inside(worker: Worker)
  {
    worker.Draining? || worker.Drained? || worker.Stamped?
  }

  predicate CleanerInside(w: World)
  {
    (w.cleaner.Judging? || w.cleaner.Closing?) && w.cleaner.doc in w.table.mapped
  }

  /** A mutex has one holder: a worker, or the cleaner. */
  ghost predicate Exclusive(w: World)
  {
    && (forall k :: k in w.workers && Inside(w.workers[k]) ==>
          w.workers[k].q in w.table.queues && w.table.queues[w.workers[k].q].locked)
    && (forall j, k :: j in w.workers && k in w.workers && j != k && Inside(w.workers[j]) && Inside(w.workers[k]) ==>
          w.workers[j].q != w.workers[k].q)
    && (CleanerInside(w) && w.table.mapped[w.cleaner.doc] in w.table.queues ==>
          && w.table.queues[w.table.mapped[w.cleaner.doc]].locked
          && forall k :: k in w.workers && Inside(w.workers[k]) ==> w.workers[k].q != w.table.mapped[w.cleaner.doc])
  }

  lemma SenderStepKeepsExclusive(config: Config, w: World, s: Step)
    requires Exclusive(w) && Enabled(config, w, s) && !Panics(config, w, s) && (s.Obtain? || s.Send? || s.Stamp?)
    ensures Exclusive(Next(config, w, s))
  {
  }

  lemma LockStepKeepsExclusive(config: Config, w: World, s: Step)
    requires Exclusive(w) && Enabled(config, w, s) && s.Lock?
    ensures Exclusive(Next(config, w, s))
  {
    var q := WorkerOf(w, s.worker).q;
    if !w.table.queues[q].locked {
      assert forall k :: k in w.workers && Inside(w.workers[k]) ==> w.workers[k].q != q;
    }
  }

  lemma UnlockStepKeepsExclusive(config: Config, w: World, s: Step)
    requires Exclusive(w) && Enabled(config, w, s) && s.Unlock?
    ensures Exclusive(Next(config, w, s))
  {
    var q := WorkerOf(w, s.worker).q;
    assert forall k :: k in w.workers && k != s.worker && Inside(w.workers[k]) ==> w.workers[k].q != q;
  }

  lemma WorkerStepKeepsExclusive(config: Config, w: World, s: Step)
    requires Exclusive(w) && Enabled(config, w, s) && (s.Find? || s.Take? || s.EndDrain? || s.StampDrained?)
    ensures Exclusive(Next(config, w, s))
  {
    match s {
      case Find(_, _) =>
      case Take(_) =>
      case EndDrain(_) =>
      case StampDrained(_) =>
    }
  }

  lemma CleanerMoveKeepsExclusive(config: Config, w: World, s: Step)
    requires Exclusive(w) && Enabled(config, w, s) && (s.Wake? || s.Acquire? || s.Suspect? || s.Release?)
    ensures Exclusive(Next(config, w, s))
  {
  }

  lemma CleanerStepKeepsExclusive(config: Config, w: World, s: Step)
    requires Exclusive(w) && Enabled(config, w, s) && (s.TryLock? || s.Judge? || s.Close?)
    ensures Exclusive(Next(config, w, s))
  {
    match s {
      case TryLock =>
      case Judge =>
      case Close => assert CleanerInside(w);
    }
  }

  lemma StepKeepsExclusive(config: Config, w: World, s: Step)
    requires Exclusive(w) && Enabled(config, w, s) && !Panics(config, w, s)
    ensures Exclusive(Next(config, w, s))
  {
    match s {
      case Tick =>
      case Spin(_) =>
      case Obtain(_, _, _, _) => SenderStepKeepsExclusive(config, w, s);
      case Send(_) => SenderStepKeepsExclusive(config, w, s);
      case Stamp(_) => SenderStepKeepsExclusive(config, w, s);
      case Find(_, _) => WorkerStepKeepsExclusive(config, w, s);
      case Lock(_) => LockStepKeepsExclusive(config, w, s);
      case Take(_) => WorkerStepKeepsExclusive(config, w, s);
      case EndDrain(_) => WorkerStepKeepsExclusive(config, w, s);
      case StampDrained(_) => WorkerStepKeepsExclusive(config, w, s);
      case Unlock(_) => UnlockStepKeepsExclusive(config, w, s);
      case TryLock => CleanerStepKeepsExclusive(config, w, s);
      case Judge => CleanerStepKeepsExclusive(config, w, s);
      case Close => CleanerStepKeepsExclusive(config, w, s);
      case _ => CleanerMoveKeepsExclusive(config, w, s);
    }
  }

  /** Over every run, whatever the delays, a queue is worked on by one goroutine at a time. */
  lemma {:induction false} OneAtATime(config: Config, ws: seq<World>, ss: seq<Step>, n: nat)
    requires Run(config, ws, ss) && n < |ws|
    ensures Exclusive(ws[n])
  {
    if n > 0 {
      OneAtATime(config, ws, ss, n - 1);
      StepKeepsExclusive(config, ws[n - 1], ss[n - 1]);
    }
  }

  // ----- Workers that come too late -----

  /** The worker `k` drains the queue `q`, which is open. */
  ghost predicate DrainsOpen(w: World, k: nat, q: nat)
  {
    WorkerOf(w, k) == Draining(q) && q in w.table.queues && !w.table.queues[q].closed
  }

  /** The worker `k` drains the queue `q`, which is closed. */
  ghost predicate Caught(w: World, k: nat, q: nat)
  {
    WorkerOf(w, k) == Draining(q) && q in w.table.queues && w.table.queues[q].closed
  }

  /** Neither the table nor what a queue is for, nor whether it is closed, changes. */
  ghost predicate SameShape(t: Table, t': Table)
  {
    && t'.mapped == t.mapped && t'.queues.Keys == t.queues.Keys
    && forall q :: q in t.queues ==> t'.queues[q].doc == t.queues[q].doc && t'.queues[q].closed == t.queues[q].closed
  }

  lemma SenderKeepsShape(config: Config, w: World, s: Step)
    requires Enabled(config, w, s) && !Panics(config, w, s) && (s.Send? || s.Stamp?)
    ensures SameShape(w.table, Next(config, w, s).table)
  {
  }

  lemma WorkerKeepsShape(config: Config, w: World, s: Step)
    requires Enabled(config, w, s)
    requires WorkerActs(s)
    ensures SameShape(w.table, Next(config, w, s).table)
  {
  }

  /** Only making and closing a queue change the shape of the table. */
  lemma StepKeepsShape(config: Config, w: World, s: Step)
    requires Enabled(config, w, s) && !Panics(config, w, s) && !s.Obtain? && !s.Close?
    ensures SameShape(w.table, Next(config, w, s).table)
  {
    match s {
      case Send(_) => SenderKeepsShape(config, w, s);
      case Stamp(_) => SenderKeepsShape(config, w, s);
      case _ =>
        if WorkerActs(s) {
          WorkerKeepsShape(config, w, s);
        }
    }
  }

  lemma StepKeepsClosed(config: Config, w: World, s: Step, q: nat)
    requires Enabled(config, w, s) && !Panics(config, w, s) && q in w.table.queues && w.table.queues[q].closed
    ensures q in Next(config, w, s).table.queues && Next(config, w, s).table.queues[q].closed
  {
    match s {
      case Obtain(_, _, _, _) =>
      case Close =>
      case _ => StepKeepsShape(config, w, s);
    }
  }

  lemma StepKeepsWorker(config: Config, w: World, s: Step, k: nat, q: nat)
    requires Enabled(config, w, s) && !Panics(config, w, s) && WorkerOf(w, k) == Draining(q)
    requires s != EndDrain(k)
    ensures WorkerOf(Next(config, w, s), k) == Draining(q)
  {
    match s {
      case Tick =>
      case Obtain(_, _, _, _) =>
      case Send(_) =>
      case Stamp(_) =>
      case Find(_, _) =>
      case Lock(_) =>
      case Take(_) =>
      case Spin(_) =>
      case EndDrain(_) =>
      case StampDrained(_) =>
      case Unlock(_) =>
      case Wake =>
      case Acquire =>
      case Suspect(_) =>
      case TryLock =>
      case Judge =>
      case Close =>
      case Release =>
    }
  }

  lemma RunStep(config: Config, ws: seq<World>, ss: seq<Step>, i: nat)
    requires Run(config, ws, ss) && i < |ss|
    ensures Enabled(config, ws[i], ss[i]) && !Panics(config, ws[i], ss[i])
    ensures ws[i + 1] == Next(config, ws[i], ss[i])
  {
  }

  lemma SpinStep(config: Config, w: World, s: Step, k: nat, q: nat)
    requires Enabled(config, w, s) && !Panics(config, w, s) && Caught(w, k, q)
    ensures Caught(Next(config, w, s), k, q)
  {
    StepKeepsClosed(config, w, s, q);
    StepKeepsWorker(config, w, s, k, q);
  }

  /** A worker that drains a closed queue never finishes and never gives its mutex back. */
  lemma {:induction false} SpinsForever(config: Config, ws: seq<World>, ss: seq<Step>, m: nat, n: nat, k: nat, q: nat)
    requires Run(config, ws, ss) && m <= n < |ws| && Caught(ws[m], k, q)
    ensures Caught(ws[n], k, q)
    decreases n - m
  {
    if m < n {
      RunStep(config, ws, ss, m);
      SpinStep(config, ws[m], ss[m], k, q);
      SpinsForever(config, ws, ss, m + 1, n, k, q);
    }
  }

  lemma StepKeepsOpen(config: Config, w: World, s: Step, k: nat, q: nat)
    requires Enabled(config, w, s) && !Panics(config, w, s) && Exclusive(w) && DrainsOpen(w, k, q)
    ensures q in Next(config, w, s).table.queues && !Next(config, w, s).table.queues[q].closed
  {
    match s {
      case Obtain(_, _, _, _) =>
      case Close => assert CleanerInside(w);
      case _ => StepKeepsShape(config, w, s);
    }
  }

  lemma OpenStep(config: Config, w: World, s: Step, k: nat, q: nat)
    requires Enabled(config, w, s) && !Panics(config, w, s) && Exclusive(w) && DrainsOpen(w, k, q) && s != EndDrain(k)
    ensures DrainsOpen(Next(config, w, s), k, q)
  {
    StepKeepsOpen(config, w, s, k, q);
    StepKeepsWorker(config, w, s, k, q);
  }

  /** One that drains an open queue has it open until it is done. */
  lemma {:induction false} DrainsOpenToTheEnd(
    config: Config, ws: seq<World>, ss: seq<Step>, m: nat, n: nat, k: nat, q: nat)
    requires Run(config, ws, ss) && m <= n < |ws| && DrainsOpen(ws[m], k, q)
    requires forall i :: m <= i < n ==> ss[i] != EndDrain(k)
    ensures DrainsOpen(ws[n], k, q)
    decreases n - m
  {
    if m < n {
      RunStep(config, ws, ss, m);
      OneAtATime(config, ws, ss, m);
      OpenStep(config, ws[m], ss[m], k, q);
      DrainsOpenToTheEnd(config, ws, ss, m + 1, n, k, q);
    }
  }

  /** The table names exactly the open queues, whatever the delays. */
  ghost predicate MapOk(w: World)
  {
    && (forall doc :: doc in w.table.mapped ==>
          && w.table.mapped[doc] in w.table.queues
          && w.table.queues[w.table.mapped[doc]].doc == doc && !w.table.queues[w.table.mapped[doc]].closed)
    && (forall q :: q in w.table.queues && !w.table.queues[q].closed ==>
          w.table.queues[q].doc in w.table.mapped && w.table.mapped[w.table.queues[q].doc] == q)
  }

  lemma ObtainKeepsMap(config: Config, w: World, s: Step)
    requires MapOk(w) && Enabled(config, w, s) && s.Obtain?
    ensures MapOk(Next(config, w, s))
  {
  }

  lemma CloseKeepsMap(config: Config, w: World, s: Step)
    requires MapOk(w) && Enabled(config, w, s) && s.Close?
    ensures MapOk(Next(config, w, s))
  {
  }

  lemma StepKeepsMap(config: Config, w: World, s: Step)
    requires MapOk(w) && Enabled(config, w, s) && !Panics(config, w, s)
    ensures MapOk(Next(config, w, s))
  {
    match s {
      case Obtain(_, _, _, _) => ObtainKeepsMap(config, w, s);
      case Close => CloseKeepsMap(config, w, s);
      case _ => StepKeepsShape(config, w, s);
    }
  }

  lemma {:induction false} RunsKeepMap(config: Config, ws: seq<World>, ss: seq<Step>, n: nat)
    requires Run(config, ws, ss) && n < |ws|
    ensures MapOk(ws[n])
  {
    if n > 0 {
      RunsKeepMap(config, ws, ss, n - 1);
      StepKeepsMap(config, ws[n - 1], ss[n - 1]);
    }
  }

  /** Which of the two happens is settled when the mutex is taken: the worker is caught in a closed
      queue exactly when the table no longer has the queue that it looked up. */
  lemma CaughtExactly(config: Config, ws: seq<World>, ss: seq<Step>, n: nat, k: nat)
    requires Run(config, ws, ss) && n < |ss| && ss[n] == Lock(k)
    requires !ws[n].table.queues[WorkerOf(ws[n], k).q].locked
    ensures var q, t := WorkerOf(ws[n], k).q, ws[n].table;
      Caught(ws[n + 1], k, q) <==> !(t.queues[q].doc in t.mapped && t.mapped[t.queues[q].doc] == q)
    ensures var q := WorkerOf(ws[n], k).q;
      Caught(ws[n + 1], k, q) || DrainsOpen(ws[n + 1], k, q)
  {
    RunsKeepMap(config, ws, ss, n);
  }

  // ----- The exact bound -----

  ghost predicate Reachable(config: Config, w: World)
  {
    exists ws, ss :: Run(config, ws, ss) && ws[|ss|] == w
  }

  lemma Reach(config: Config, w: World, s: Step)
    requires Reachable(config, w) && Enabled(config, w, s) && !Panics(config, w, s)
    ensures Reachable(config, Next(config, w, s))
  {
    var ws, ss :| Run(config, ws, ss) && ws[|ss|] == w;
    var ws', ss' := ws + [Next(config, w, s)], ss + [s];
    assert Run(config, ws', ss') && ws'[|ss'|] == Next(config, w, s);
  }

  lemma StartIsReachable(config: Config)
    ensures Reachable(config, START)
  {
    var ws, ss: seq<Step> := [START], [];
    assert Run(config, ws, ss) && ws[|ss|] == START;
  }

  lemma {:induction false} ReachLater(config: Config, w: World, ticks: nat)
    requires Reachable(config, w)
    ensures Reachable(config, w.(clock := w.clock + ticks))
    decreases ticks
  {
    if ticks > 0 {
      ReachLater(config, w, ticks - 1);
      Reach(config, w.(clock := w.clock + (ticks - 1)), Tick);
    } else {
      assert w.(clock := w.clock + ticks) == w;
    }
  }

  /** A table with the one queue 0, for the document "d". */
  function Lone(buffer: seq<nat>, closed: bool, lastUse: int, locked: bool): Table
  {
    Table(if closed then map[] else map["d" := 0], map[0 := Queue("d", buffer, closed, lastUse, locked)])
  }

  /** Sender 0 has been handed the queue at time 0, has sent, and is slow to stamp. */
  function Slow(buffer: seq<nat>, taken: seq<nat>, locked: bool, worker: Worker): World
  {
    World(Lone(buffer, false, 0, locked), 0, map[0 := Sent(0, 0)], map[0 := worker], Asleep,
          map["d" := [0]], map["d" := taken])
  }

  /** Its event has been taken, sender 1 was handed the queue at time `lag`, and then the stamp of
      sender 0 has set the time of last use back to 0. */
  function Stale(lag: int, now: int): World
  {
    World(Lone([], false, 0, false), now, map[0 := Ready, 1 := Holding(0, 1, lag)], map[0 := Waiting], Asleep,
          map["d" := [0]], map["d" := [0]])
  }

  lemma FirstSend(config: Config)
    requires config.capacity > 0
    ensures Reachable(config, Slow([0], [], false, Waiting).(workers := map[], taken := map[]))
  {
    StartIsReachable(config);
    Reach(config, START, Obtain(0, "d", 0, 0));
    var w := Next(config, START, Obtain(0, "d", 0, 0));
    assert w.table == Lone([], false, 0, false);
    Reach(config, w, Send(0));
    assert [] + [0] == [0];
    assert Next(config, w, Send(0)) == Slow([0], [], false, Waiting).(workers := map[], taken := map[]);
  }

  lemma FirstFind(config: Config)
    requires config.capacity > 0
    ensures Reachable(config, Slow([0], [], false, Found(0)).(taken := map[]))
  {
    FirstSend(config);
    var w := Slow([0], [], false, Waiting).(workers := map[], taken := map[]);
    Reach(config, w, Find(0, "d"));
    assert Next(config, w, Find(0, "d")) == Slow([0], [], false, Found(0)).(taken := map[]);
  }

  lemma FirstLock(config: Config)
    requires config.capacity > 0
    ensures Reachable(config, Slow([0], [], true, Draining(0)).(taken := map[]))
  {
    FirstFind(config);
    var w := Slow([0], [], false, Found(0)).(taken := map[]);
    Reach(config, w, Lock(0));
    assert Next(config, w, Lock(0)) == Slow([0], [], true, Draining(0)).(taken := map[]);
  }

  lemma FirstTake(config: Config)
    requires config.capacity > 0
    ensures Reachable(config, Slow([], [0], true, Draining(0)))
  {
    FirstLock(config);
    var w := Slow([0], [], true, Draining(0)).(taken := map[]);
    Reach(config, w, Take(0));
    assert [0][1..] == [] && [] + [0] == [0];
    assert Next(config, w, Take(0)) == Slow([], [0], true, Draining(0));
  }

  lemma FirstStamp(config: Config)
    requires config.capacity > 0
    ensures Reachable(config, Slow([], [0], true, Stamped(0)))
  {
    FirstTake(config);
    var w := Slow([], [0], true, Draining(0));
    Reach(config, w, EndDrain(0));
    var w1 := Slow([], [0], true, Drained(0, 0));
    assert Next(config, w, EndDrain(0)) == w1;
    Reach(config, w1, StampDrained(0));
    assert Next(config, w1, StampDrained(0)) == Slow([], [0], true, Stamped(0));
  }

  lemma FirstUnlock(config: Config)
    requires config.capacity > 0
    ensures Reachable(config, Slow([], [0], false, Waiting))
  {
    FirstStamp(config);
    var w := Slow([], [0], true, Stamped(0));
    Reach(config, w, Unlock(0));
    assert Next(config, w, Unlock(0)) == Slow([], [0], false, Waiting);
  }

  lemma LateObtain(config: Config, lag: nat)
    requires config.capacity > 0
    ensures Reachable(config, World(Lone([], false, lag, false), lag, map[0 := Sent(0, 0), 1 := Holding(0, 1, lag)],
                                    map[0 := Waiting], Asleep, map["d" := [0]], map["d" := [0]]))
  {
    FirstUnlock(config);
    var w := Slow([], [0], false, Waiting).(clock := lag);
    ReachLater(config, Slow([], [0], false, Waiting), lag);
    Reach(config, w, Obtain(1, "d", 1, 1));
    assert Next(config, w, Obtain(1, "d", 1, 1)).table == Lone([], false, lag, false);
  }

  lemma StaleStamp(config: Config, lag: nat, now: int)
    requires config.capacity > 0 && lag <= config.stampWithin && lag <= now
    ensures Reachable(config, Stale(lag, now))
  {
    LateObtain(config, lag);
    var w := World(Lone([], false, lag, false), lag, map[0 := Sent(0, 0), 1 := Holding(0, 1, lag)], map[0 := Waiting],
                   Asleep, map["d" := [0]], map["d" := [0]]);
    Reach(config, w, Stamp(0));
    assert Next(config, w, Stamp(0)) == Stale(lag, lag);
    ReachLater(config, Stale(lag, lag), now - lag);
    assert Stale(lag, lag).(clock := lag + (now - lag)) == Stale(lag, now);
  }

  lemma SuspectIdle(config: Config, w: World)
    requires Reachable(config, w) && w.clock > config.idleTimeout && w.cleaner == Asleep
    requires w.table == Lone([], false, 0, false)
    ensures Reachable(config, w.(cleaner := Suspecting(w.clock, "d")))
  {
    Reach(config, w, Wake);
    Reach(config, w.(cleaner := Woken(w.clock)), Acquire);
    Reach(config, w.(cleaner := Sweeping(w.clock)), Suspect("d"));
  }

  /** The cleaner finds the queue idle and empty, and is about to close it. */
  lemma Condemn(config: Config, w: World)
    requires Reachable(config, w) && w.clock > config.idleTimeout && w.cleaner == Asleep
    requires w.table == Lone([], false, 0, false)
    ensures Reachable(config, w.(table := Lone([], false, 0, true), cleaner := Closing(w.clock, "d")))
  {
    SuspectIdle(config, w);
    var w1 := w.(cleaner := Suspecting(w.clock, "d"));
    Reach(config, w1, TryLock);
    var w2 := w.(table := Lone([], false, 0, true), cleaner := Judging(w.clock, "d"));
    assert Next(config, w1, TryLock) == w2;
    Reach(config, w2, Judge);
  }

  lemma Shut(config: Config, w: World, buffer: seq<nat>)
    requires Reachable(config, w) && w.cleaner.Closing? && w.cleaner.doc == "d"
    requires w.table == Lone(buffer, false, 0, true)
    ensures Reachable(config, w.(table := Lone(buffer, true, 0, false), cleaner := Sweeping(w.cleaner.now)))
  {
    Reach(config, w, Close);
    assert Next(config, w, Close).table == Lone(buffer, true, 0, false);
  }

  lemma CleanUp(config: Config, w: World)
    requires Reachable(config, w) && w.clock > config.idleTimeout && w.cleaner == Asleep
    requires w.table == Lone([], false, 0, false)
    ensures Reachable(config, w.(table := Lone([], true, 0, false), cleaner := Sweeping(w.clock)))
  {
    Condemn(config, w);
    Shut(config, w.(table := Lone([], false, 0, true), cleaner := Closing(w.clock, "d")), []);
  }

  /** It can happen whatever the time bounds: a worker looks a queue up, the cleaner closes it, and
      the worker takes its mutex. */
  lemma WorkerCanBeCaught(config: Config)
    ensures exists w :: Reachable(config, w) && Caught(w, 0, 0)
  {
    StartIsReachable(config);
    Reach(config, START, Obtain(0, "d", 0, 0));
    var w1 := Next(config, START, Obtain(0, "d", 0, 0));
    assert w1.table == Lone([], false, 0, false);
    Reach(config, w1, Find(0, "d"));
    var w2 := Next(config, w1, Find(0, "d"));
    ReachLater(config, w2, config.idleTimeout + 1);
    var w3 := w2.(clock := config.idleTimeout + 1);
    CleanUp(config, w3);
    var w4 := w3.(table := Lone([], true, 0, false), cleaner := Sweeping(w3.clock));
    Reach(config, w4, Lock(0));
    assert Caught(Next(config, w4, Lock(0)), 0, 0);
  }

  ghost predicate CanPanic(config: Config)
  {
    exists w, s :: Reachable(config, w) && Panics(config, w, s)
  }

  lemma TimelyIsSafe(config: Config, w: World)
    requires Timely(config) && Reachable(config, w)
    ensures Inv(config, w)
  {
    var ws, ss :| Run(config, ws, ss) && ws[|ss|] == w;
    RunsKeepInv(config, ws, ss, |ss|);
  }

  /** Sender 1 still holds the queue, within its bound, when the cleaner finds it idle. */
  lemma LateHolder(config: Config) returns (lag: nat)
    requires config.capacity > 0 && !Timely(config)
    ensures Reachable(config, Stale(lag, config.idleTimeout + 1))
    ensures config.idleTimeout + 1 <= lag + config.sendWithin
  {
    var end := config.idleTimeout + 1;
    lag := if config.stampWithin < end then config.stampWithin else end;
    StaleStamp(config, lag, end);
  }

  /** A send can hit a closed channel exactly when the time a sender may take to send and the time a
      stamp may take to be stored add up to more than the idle timeout. The first alone is no safe bound. */
  lemma PanicExactly(config: Config)
    requires config.capacity > 0
    ensures CanPanic(config) <==> config.sendWithin + config.stampWithin > config.idleTimeout
  {
    if Timely(config) {
      forall w, s | Reachable(config, w)
        ensures !Panics(config, w, s)
      {
        TimelyIsSafe(config, w);
        NoPanic(config, w, s);
      }
    } else {
      var lag := LateHolder(config);
      var w := Stale(lag, config.idleTimeout + 1);
      CleanUp(config, w);
      var w' := w.(table := Lone([], true, 0, false), cleaner := Sweeping(w.clock));
      assert Reachable(config, w') && Panics(config, w', Send(1));
    }
  }

  // ----- Accepted events that are lost -----

  /** Not all that was accepted for the document has been taken, and no queue is mapped for it. */
  ghost predicate Lost(w: World, doc: string)
  {
    Logged(w.taken, doc) != Logged(w.accepted, doc) && doc !in w.table.mapped
  }

  /** A closed queue holds events, and no worker has looked it up. */
  ghost predicate Abandoned(w: World, q: nat)
  {
    && q in w.table.queues && w.table.queues[q].closed && w.table.queues[q].buffer != []
    && forall k :: k in w.workers && !w.workers[k].Waiting? ==> w.workers[k].q != q
  }

  lemma WorkerKeepsAbandoned(config: Config, w: World, s: Step, q: nat)
    requires MapOk(w) && Enabled(config, w, s) && Abandoned(w, q)
    requires WorkerActs(s)
    ensures var w' := Next(config, w, s);
      Abandoned(w', q) && w'.table.queues[q].buffer == w.table.queues[q].buffer
  {
    match s {
      case Lock(_) =>
      case Take(_) =>
      case StampDrained(_) =>
      case Unlock(_) =>
      case _ =>
    }
  }

  lemma StepKeepsAbandoned(config: Config, w: World, s: Step, q: nat)
    requires MapOk(w) && Enabled(config, w, s) && !Panics(config, w, s) && Abandoned(w, q)
    ensures var w' := Next(config, w, s);
      Abandoned(w', q) && w'.table.queues[q].buffer == w.table.queues[q].buffer
  {
    if WorkerActs(s) {
      WorkerKeepsAbandoned(config, w, s, q);
    }
  }

  /** What lies in an abandoned queue is never taken. */
  lemma {:induction false} AbandonedForGood(config: Config, ws: seq<World>, ss: seq<Step>, m: nat, n: nat, q: nat)
    requires Run(config, ws, ss) && m <= n < |ws| && Abandoned(ws[m], q)
    ensures Abandoned(ws[n], q) && ws[n].table.queues[q].buffer == ws[m].table.queues[q].buffer
    decreases n - m
  {
    if m < n {
      RunStep(config, ws, ss, m);
      RunsKeepMap(config, ws, ss, m);
      StepKeepsAbandoned(config, ws[m], ss[m], q);
      AbandonedForGood(config, ws, ss, m + 1, n, q);
    }
  }

  ghost predicate CanLose(config: Config)
  {
    exists w, q :: Reachable(config, w) && Abandoned(w, q) && Lost(w, w.table.queues[q].doc)
  }

  /** The cleaner has seen the queue empty; sender 1 sends; the cleaner closes the queue. */
  lemma LateSendIsLost(config: Config, lag: nat)
    requires config.capacity > 0 && config.idleTimeout + 1 <= lag + config.sendWithin
    requires Reachable(config, Stale(lag, config.idleTimeout + 1))
    ensures CanLose(config)
  {
    var w := Stale(lag, config.idleTimeout + 1);
    Condemn(config, w);
    var w1 := w.(table := Lone([], false, 0, true), cleaner := Closing(w.clock, "d"));
    Reach(config, w1, Send(1));
    var w2 := Next(config, w1, Send(1));
    assert [] + [1] == [1] && w2.table == Lone([1], false, 0, true);
    Shut(config, w2, [1]);
    assert [0] + [1] == [0, 1];
    IsLost(config, w2.(table := Lone([1], true, 0, false), cleaner := Sweeping(w2.cleaner.now)));
  }

  lemma IsLost(config: Config, w: World)
    requires Reachable(config, w) && w.table == Lone([1], true, 0, false) && w.workers == map[0 := Waiting]
    requires Logged(w.taken, "d") == [0] && Logged(w.accepted, "d") == [0, 1]
    ensures CanLose(config)
  {
    assert Abandoned(w, 0) && Lost(w, w.table.queues[0].doc);
  }

  /** An event that was reported accepted can be lost, with no panic, under the very same condition: it
      is sent after the cleaner has seen the queue empty and before the cleaner closes it. */
  lemma LossExactly(config: Config)
    requires config.capacity > 0
    ensures CanLose(config) <==> config.sendWithin + config.stampWithin > config.idleTimeout
  {
    if Timely(config) {
      forall w, q | Reachable(config, w) && Abandoned(w, q)
        ensures false
      {
        TimelyIsSafe(config, w);
      }
    } else {
      var lag := LateHolder(config);
      LateSendIsLost(config, lag);
    }
  }
}
