/** Lock-state-batch requests that wait for their acknowledgement over the socket
    (frontend/src/Realtime/realtimeClient.js). */
module LockStateBatch {

  datatype Outcome =
    | Resolved
    | Failed(reason: Reason)

  datatype Reason = ServerError | TimedOut | SocketClosed | Disconnected | SendFailed

  /** `pending` maps a request id to its timer; `timers` are the armed ones. `outcomes` lists what the
      promise of each request was settled with, one entry for every call of resolve or reject. */
  datatype Batch = Batch(
    pending: map<string, nat>, timers: map<nat, string>, outcomes: map<string, seq<Outcome>>, next: nat)

  const EMPTY := Batch(map[], map[], map[], 0)

  // ----- The operations on values -----

  function OutcomesOf(b: Batch, id: string): seq<Outcome>
  {
    if id in b.outcomes then b.outcomes[id] else []
  }

  function Settle(b: Batch, id: string, o: Outcome): Batch
  {
    b.(outcomes := b.outcomes[id := OutcomesOf(b, id) + [o]])
  }

  /** Take `id` out of the map, disarm its timer and settle it. */
  function Retire(b: Batch, id: string, o: Outcome): Batch
    requires id in b.pending
  {
    Settle(b.(timers := b.timers - {b.pending[id]}, pending := b.pending - {id}), id, o)
  }

  function Requested(b: Batch, id: string, sent: bool): Batch
  {
    var b' := b.(timers := b.timers[b.next := id], pending := b.pending[id := b.next], next := b.next + 1);
    if sent then b' else Retire(b', id, Failed(SendFailed))
  }

  function Acked(b: Batch, id: string, ok: bool): Batch
  {
    if id != "" && id in b.pending then Retire(b, id, if ok then Resolved else Failed(ServerError)) else b
  }

  function TimerFired(b: Batch, timer: nat): Batch
    requires timer in b.timers
  {
    var id, b' := b.timers[timer], b.(timers := b.timers - {timer});
    if id in b.pending then Settle(b'.(pending := b.pending - {id}), id, Failed(TimedOut)) else b'
  }

  /** The loop over the map, when it has been through `done`. */
  function RejectedSome(b: Batch, done: set<string>, reason: Reason): Batch
    requires done <= b.pending.Keys
  {
    b.(timers := map t | t in b.timers && (forall id <- done :: b.pending[id] != t) :: b.timers[t],
       outcomes := map id | id in b.outcomes.Keys + done
         :: if id in done then OutcomesOf(b, id) + [Failed(reason)] else b.outcomes[id])
  }

  function RejectedAll(b: Batch, reason: Reason): Batch
  {
    RejectedSome(b, b.pending.Keys, reason).(pending := map[])
  }

  lemma RejectNone(b: Batch, reason: Reason)
    ensures RejectedSome(b, {}, reason) == b
  {
  }

  lemma RejectOne(b: Batch, done: set<string>, id: string, reason: Reason)
    requires done <= b.pending.Keys && id in b.pending && id !in done
    ensures var b' := RejectedSome(b, done, reason);
      RejectedSome(b, done + {id}, reason) == Settle(b'.(timers := b'.timers - {b.pending[id]}), id, Failed(reason))
  {
    var x, b' := RejectedSome(b, done + {id}, reason), RejectedSome(b, done, reason);
    assert x.timers == b'.timers - {b.pending[id]};
    assert x.outcomes == b'.outcomes[id := OutcomesOf(b', id) + [Failed(reason)]];
  }

  // ----- The module -----

  class PendingBatches {
    var documentLockLockStateBatchPending: map<string, nat>
    var timeouts: map<nat, string>
    var outcomes: map<string, seq<Outcome>>
    var next: nat

    constructor ()
      ensures View() == EMPTY
    {
      documentLockLockStateBatchPending, timeouts, outcomes, next := map[], map[], map[], 0;
    }

    function View(): Batch
      reads this
    {
      Batch(documentLockLockStateBatchPending, timeouts, outcomes, next)
    }

    method SettlePromise(id: string, o: Outcome)
      modifies `outcomes
      ensures View() == Settle(old(View()), id, o)
    {
      outcomes := outcomes[id := (if id in outcomes then outcomes[id] else []) + [o]];
    }

    /** The request proper, once the socket is known to be open. `sent` says whether the send succeeds. */
    method Request(requestId: string, sent: bool)
      modifies this
      ensures View() == Requested(old(View()), requestId, sent)
    {
      var timer := next;
      next := next + 1;
      timeouts := timeouts[timer := requestId];
      documentLockLockStateBatchPending := documentLockLockStateBatchPending[requestId := timer];
      if !sent {
        timeouts := timeouts - {timer};
        documentLockLockStateBatchPending := documentLockLockStateBatchPending - {requestId};
        SettlePromise(requestId, Failed(SendFailed));
      }
    }

    method OnAck(requestId: string, ok: bool)
      modifies this
      ensures View() == Acked(old(View()), requestId, ok)
    {
      if requestId != "" && requestId in documentLockLockStateBatchPending {
        timeouts := timeouts - {documentLockLockStateBatchPending[requestId]};
        documentLockLockStateBatchPending := documentLockLockStateBatchPending - {requestId};
        if ok {
          SettlePromise(requestId, Resolved);
        } else {
          SettlePromise(requestId, Failed(ServerError));
        }
      }
    }

    method OnTimeout(timer: nat)
      requires timer in timeouts
      modifies this
      ensures View() == TimerFired(old(View()), timer)
    {
      var requestId := timeouts[timer];
      timeouts := timeouts - {timer};
      if requestId in documentLockLockStateBatchPending {
        documentLockLockStateBatchPending := documentLockLockStateBatchPending - {requestId};
        SettlePromise(requestId, Failed(TimedOut));
      }
    }

    method RejectAll(reason: Reason)
      modifies this
      ensures View() == RejectedAll(old(View()), reason)
    {
      ghost var was := View();
      var left := documentLockLockStateBatchPending.Keys;
      RejectNone(was, reason);
      while left != {}
        invariant left <= was.pending.Keys
        invariant View() == RejectedSome(was, was.pending.Keys - left, reason)
        decreases left
      {
        var id :| id in left;
        RejectOne(was, was.pending.Keys - left, id, reason);
        assert was.pending.Keys - (left - {id}) == was.pending.Keys - left + {id};
        left := left - {id};
        timeouts := timeouts - {documentLockLockStateBatchPending[id]};
        SettlePromise(id, Failed(reason));
      }
      documentLockLockStateBatchPending := map[];
      assert was.pending.Keys - left == was.pending.Keys;
    }
  }

  // ----- What every operation keeps -----

  /** The map holds exactly the requests that are not settled, each with its own armed timer and no
      other timer armed; and what is settled was settled once. `issued` are the requests made. */
  ghost predicate Inv(b: Batch, issued: set<string>)
  {
    && b.pending.Keys + b.outcomes.Keys == issued && b.pending.Keys !! b.outcomes.Keys
    && (forall id :: id in b.outcomes ==> |b.outcomes[id]| == 1)
    && (forall id :: id in b.pending ==> b.pending[id] in b.timers && b.timers[b.pending[id]] == id)
    && (forall t :: t in b.timers ==> t < b.next && b.timers[t] in b.pending && b.pending[b.timers[t]] == t)
  }

  lemma RequestKeepsInv(b: Batch, issued: set<string>, id: string, sent: bool)
    requires Inv(b, issued) && id !in issued
    ensures Inv(Requested(b, id, sent), issued + {id})
  {
  }

  lemma AckKeepsInv(b: Batch, issued: set<string>, id: string, ok: bool)
    requires Inv(b, issued)
    ensures Inv(Acked(b, id, ok), issued)
  {
  }

  lemma TimeoutKeepsInv(b: Batch, issued: set<string>, timer: nat)
    requires Inv(b, issued) && timer in b.timers
    ensures Inv(TimerFired(b, timer), issued)
    ensures TimerFired(b, timer) == Retire(b, b.timers[timer], Failed(TimedOut))
  {
  }

  lemma RejectAllKeepsInv(b: Batch, issued: set<string>, reason: Reason)
    requires Inv(b, issued)
    ensures Inv(RejectedAll(b, reason), issued) && RejectedAll(b, reason).timers == map[]
  {
  }
}
