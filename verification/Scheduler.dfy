/** One-time jobs: live timers, the map that tracks them and the persisted records, across
    crashes and restarts (services/core/scheduler/handler.go). */
module Scheduler {
  import opened Seqs

  /** Times are in nanoseconds; a record keeps whole milliseconds. */
  const MILLISECOND := 1_000_000
  const SOON := 5_000 * MILLISECOND

  const REQUESTABLE := {"refreshSystemIndexes", "refreshAdjustedPrices", "refreshMarketPrices"}

  /** What Redis holds under the key of a job id. */
  datatype Stored =
    | Record(taskType: string, runAtMs: int, data: string)
    | Malformed

  /** A gocron duration job, which repeats until it is removed, with the task type and data that its task
      has captured. `fired` says that the task has begun. */
  datatype Timer = Timer(jobID: string, taskType: string, data: string, due: int, fired: bool)

  /** `next` is a timer id that gocron has not given out. */
  datatype Store = Store(timers: map<nat, Timer>, tracked: map<string, nat>, records: map<string, Stored>, next: nat)

  datatype Outcome = Scheduled | NotRequestable | NoHandler

  datatype Verdict = Ack | Nack

  /** What the clock shows when a job is scheduled: once to compare, and once more for the duration. */
  datatype Reading = Reading(now: int, later: int)

  datatype Request = Request(jobID: string, taskType: string, runAtMs: int, data: string)

  // ----- The operations on values -----

  /** The moment a job is set for: its own, or soon when that has passed. */
  function Moment(runAt: int, now: int): int
  {
    if runAt > now then runAt else now + SOON
  }

  /** When a timer that is set for `at` by a clock reading of `later` goes off. */
  function DueAt(at: int, later: int): int
  {
    if at - later < 0 then later + SOON else at
  }

  /** A job is due at its own time when that is still ahead at both readings of the clock, and
      otherwise within five seconds of the later one, but never before it. */
  lemma DueInTime(runAt: int, now: int, later: int)
    requires now <= later
    ensures var due := DueAt(Moment(runAt, now), later);
      if now < runAt && later <= runAt then due == runAt else later <= due <= later + 5_000_000_000
  {
  }

  function Planned(s: Store, jobID: string, taskType: string, runAt: int, data: string, now: int, later: int): Store
  {
    var at := Moment(runAt, now);
    Store(s.timers[s.next := Timer(jobID, taskType, data, DueAt(at, later), false)],
          s.tracked[jobID := s.next],
          s.records[jobID := Record(taskType, at / MILLISECOND, data)],
          s.next + 1)
  }

  function Removed(s: Store, jobID: string): Store
  {
    s.(timers := if jobID in s.tracked then s.timers - {s.tracked[jobID]} else s.timers,
       tracked := s.tracked - {jobID},
       records := s.records - {jobID})
  }

  function RunAt(r: Stored): int
    requires r.Record?
  {
    r.runAtMs * MILLISECOND
  }

  /** A record that a restart at `now` brings back to life. */
  predicate Survives(handlers: set<string>, r: Stored, now: int)
  {
    r.Record? && RunAt(r) > now && r.taskType in handlers && r.taskType in REQUESTABLE
  }

  /** Two records of one task with one payload. */
  predicate SameTask(r: Stored, r': Stored)
  {
    r.Record? && r'.Record? && r'.taskType == r.taskType && r'.data == r.data
  }

  /** One round of the restore loop. `clock` is what scheduling the job reads, a little after `now`. */
  function RestoredOne(handlers: set<string>, s: Store, id: string, now: int, clock: Reading): Store
  {
    if id !in s.records then s
    else
      var r := s.records[id];
      if Survives(handlers, r, now) then Planned(s, id, r.taskType, RunAt(r), r.data, clock.now, clock.later)
      else s.(records := s.records - {id})
  }

  function Restored(handlers: set<string>, s: Store, keys: seq<string>, now: int, clocks: seq<Reading>): Store
    requires |clocks| == |keys|
    decreases |keys|
  {
    if keys == [] then s
    else Restored(handlers, RestoredOne(handlers, s, keys[0], now, clocks[0]), keys[1..], now, clocks[1..])
  }

  // ----- The scheduler -----

  class TaskScheduler {
    var handlers: set<string>
    var scheduler: map<nat, Timer>        // the live jobs of gocron
    var nextJob: nat
    var oneTimeJobs: map<string, nat>
    var redis: map<string, Stored>

    function View(): Store
      reads this
    {
      Store(scheduler, oneTimeJobs, redis, nextJob)
    }

    method NewJob(job: Timer) returns (id: nat)
      modifies `scheduler, `nextJob
      ensures id == old(nextJob) && nextJob == id + 1 && scheduler == old(scheduler)[id := job]
    {
      id := nextJob;
      scheduler := scheduler[id := job];
      nextJob := nextJob + 1;
    }

    method ScheduleOneTimeJob(jobID: string, taskType: string, runAt: int, data: string, now: int, later: int)
      returns (outcome: Outcome)
      modifies this
      ensures handlers == old(handlers)
      ensures outcome == if taskType !in REQUESTABLE then NotRequestable
                         else if taskType !in handlers then NoHandler else Scheduled
      ensures View() == if outcome == Scheduled then Planned(old(View()), jobID, taskType, runAt, data, now, later)
                        else old(View())
    {
      if taskType !in REQUESTABLE {
        return NotRequestable;
      }
      if taskType !in handlers {
        return NoHandler;
      }
      var at := runAt;
      if !(at > now) {
        at := now + SOON;
      }
      var duration := at - later;
      if duration < 0 {
        duration := SOON;
      }
      var job := NewJob(Timer(jobID, taskType, data, later + duration, false));
      oneTimeJobs := oneTimeJobs[jobID := job];
      redis := redis[jobID := Record(taskType, at / MILLISECOND, data)];
      return Scheduled;
    }

    method RemoveOneTimeJob(jobID: string)
      modifies this
      ensures handlers == old(handlers) && View() == Removed(old(View()), jobID)
    {
      if jobID in oneTimeJobs {
        scheduler := scheduler - {oneTimeJobs[jobID]};
        oneTimeJobs := oneTimeJobs - {jobID};
      }
      redis := redis - {jobID};
    }

    /** `keys` is what the scan returned, `now` and `clocks` what the clock showed. */
    method RestoreOneTimeJobs(keys: seq<string>, now: int, clocks: seq<Reading>)
      requires |clocks| == |keys|
      modifies this
      ensures handlers == old(handlers)
      ensures View() == Restored(handlers, old(View()), keys, now, clocks)
    {
      for i := 0 to |keys|
        invariant handlers == old(handlers)
        invariant Restored(handlers, View(), keys[i..], now, clocks[i..])
               == Restored(handlers, old(View()), keys, now, clocks)
      {
        var key := keys[i];
        ghost var before := View();
        assert keys[i..][1..] == keys[i + 1..] && clocks[i..][1..] == clocks[i + 1..];
        if key !in redis {
          assert View() == RestoredOne(handlers, before, key, now, clocks[i]);
          continue;
        }
        match redis[key] {
          case Malformed =>
            redis := redis - {key};
          case Record(taskType, runAtMs, data) =>
            var runAt := runAtMs * MILLISECOND;
            if !(runAt > now) {
              redis := redis - {key};
            } else if taskType !in handlers {
              redis := redis - {key};
            } else if taskType !in REQUESTABLE {
              redis := redis - {key};
            } else {
              var outcome := ScheduleOneTimeJob(key, taskType, runAt, data, clocks[i].now, clocks[i].later);
            }
        }
        assert View() == RestoredOne(handlers, before, key, now, clocks[i]);
      }
    }

    /** `request` is `None` when the message does not parse; `generated` is the id made up for a
        request without one. The clock is read once here, and again in scheduling the job. */
    method ProcessScheduleRequest(request: Option<Request>, generated: string, now: int, clock: Reading)
      returns (verdict: Verdict)
      modifies this
      ensures handlers == old(handlers)
      ensures verdict == Answer(handlers, request, now)
      ensures View() != old(View()) ==> verdict == Ack
      ensures verdict == Nack <==>
        request == None || (request.value.runAtMs * 1_000_000 > now && request.value.taskType in handlers
                            && request.value.taskType !in REQUESTABLE)
      ensures View() == if Accepts(handlers, request, now)
                        then Planned(old(View()), IdOf(request.value, generated), request.value.taskType,
                                     request.value.runAtMs * MILLISECOND, request.value.data, clock.now, clock.later)
                        else old(View())
      ensures View() != old(View()) ==>
        var id := if request.value.jobID == "" then generated else request.value.jobID;
        oneTimeJobs.Keys == old(oneTimeJobs).Keys + {id} && redis.Keys == old(redis).Keys + {id}
    {
      match request {
        case None =>
          return Nack;
        case Some(req) =>
          var jobID := req.jobID;
          if jobID == "" {
            jobID := generated;
          }
          var runAt := req.runAtMs * MILLISECOND;
          if !(runAt > now) {
            return Ack;
          }
          if req.taskType !in handlers {
            return Ack;
          }
          var outcome := ScheduleOneTimeJob(jobID, req.taskType, runAt, req.data, clock.now, clock.later);
          if outcome != Scheduled {
            return Nack;
          }
          return Ack;
      }
    }
  }

  function IdOf(req: Request, generated: string): string
  {
    if req.jobID == "" then generated else req.jobID
  }

  /** The requests that become jobs. */
  predicate Accepts(handlers: set<string>, request: Option<Request>, now: int)
  {
    && request.Some? && request.value.runAtMs * MILLISECOND > now
    && request.value.taskType in handlers && request.value.taskType in REQUESTABLE
  }

  /** A request that cannot be parsed, or is timely and handled but not requestable, is sent back. */
  function Answer(handlers: set<string>, request: Option<Request>, now: int): Verdict
  {
    if request == None then Nack
    else if request.value.runAtMs * MILLISECOND > now && request.value.taskType in handlers
         && request.value.taskType !in REQUESTABLE then Nack
    else Ack
  }

  // ----- Agreement of the three stores -----

  /** The timers and the tracking map describe the same jobs, one timer each, and have records. */
  ghost predicate Linked(s: Store)
  {
    && (forall id :: id in s.tracked ==> s.tracked[id] in s.timers && s.timers[s.tracked[id]].jobID == id)
    && (forall t :: t in s.timers ==> s.timers[t].jobID in s.tracked && s.tracked[s.timers[t].jobID] == t)
    && (forall t :: t in s.timers ==> t < s.next)
  }

  ghost predicate Agree(s: Store)
  {
    Linked(s) && s.tracked.Keys == s.records.Keys
  }

  /** Scheduling keeps the stores in agreement exactly when the job id is not live. With a live id
      the old timer is left running without an entry that could remove it. */
  lemma PlanningAgrees(s: Store, jobID: string, taskType: string, runAt: int, data: string, now: int, later: int)
    requires Agree(s)
    ensures Agree(Planned(s, jobID, taskType, runAt, data, now, later)) <==> jobID !in s.tracked
  {
    var s' := Planned(s, jobID, taskType, runAt, data, now, later);
    if jobID in s.tracked {
      var t := s.tracked[jobID];
      assert t in s'.timers && s'.timers[t].jobID == jobID && s'.tracked[jobID] != t;
    }
  }

  /** The timer that a repeated job id leaves behind outlives the removal of the job, and with it
      the handler of the job keeps being called. */
  lemma RepeatedIdOrphansTimer(
    s: Store, jobID: string, taskType: string, runAt: int, data: string, now: int, later: int)
    requires Agree(s) && jobID in s.tracked
    ensures var s' := Removed(Planned(s, jobID, taskType, runAt, data, now, later), jobID);
      && jobID !in s'.tracked && jobID !in s'.records
      && s.tracked[jobID] in s'.timers && s'.timers[s.tracked[jobID]].jobID == jobID
  {
  }

  lemma RemovalAgrees(s: Store, jobID: string)
    requires Agree(s)
    ensures var s' := Removed(s, jobID);
      Agree(s') && s'.records.Keys == s.records.Keys - {jobID}
      && forall t :: t in s'.timers <==> t in s.timers && s.timers[t].jobID != jobID
  {
  }

  // ----- Restoring -----

  ghost predicate NoRepeats<T>(s: seq<T>)
  {
    forall i, j :: 0 <= i < j < |s| ==> s[i] != s[j]
  }

  ghost function Elements<T>(s: seq<T>): set<T>
  {
    set x | x in s
  }

  /** A timer of a job that has just been scheduled from the record `r`. */
  ghost predicate Waiting(s: Store, id: string, now: int)
  {
    && id in s.tracked && s.tracked[id] in s.timers && id in s.records && s.records[id].Record?
    && var t := s.timers[s.tracked[id]];
       && !t.fired && now < t.due && RunAt(s.records[id]) <= t.due
       && t.taskType == s.records[id].taskType && t.data == s.records[id].data
  }

  /** Part of the way through the restore loop: the jobs that are tracked are not in `keys`. */
  ghost predicate Restoring(s: Store, keys: seq<string>, now: int)
  {
    && Linked(s)
    && s.tracked.Keys == s.records.Keys - Elements(keys)
    && forall id :: id in s.tracked ==> Waiting(s, id, now)
  }

  /** The scan lists no key twice whose job will be restored. */
  ghost predicate ListedOnce(handlers: set<string>, records: map<string, Stored>, keys: seq<string>, now: int)
  {
    forall i, j :: 0 <= i < j < |keys| && keys[i] in records && Survives(handlers, records[keys[i]], now) ==>
      keys[i] != keys[j]
  }

  lemma RestoreRound(handlers: set<string>, s: Store, keys: seq<string>, now: int, clock: Reading)
    requires keys != [] && Restoring(s, keys, now) && now <= clock.now
    requires ListedOnce(handlers, s.records, keys, now)
    ensures var s' := RestoredOne(handlers, s, keys[0], now, clock);
      && Restoring(s', keys[1..], now) && ListedOnce(handlers, s'.records, keys[1..], now)
      && (forall id :: id in s'.records <==>
            id in s.records && (id == keys[0] ==> Survives(handlers, s.records[id], now)))
      && (forall id :: id in s'.records && id in keys[1..] ==> s'.records[id] == s.records[id])
  {
    var id, rest := keys[0], keys[1..];
    assert keys == [id] + rest && Elements(keys) == Elements(rest) + {id};
    assert forall j :: 0 <= j < |rest| ==> rest[j] == keys[j + 1];
    assert id in s.records && Survives(handlers, s.records[id], now) ==> id !in rest;
    var s' := RestoredOne(handlers, s, id, now, clock);
    assert s'.tracked.Keys == s'.records.Keys - Elements(rest);
    RoundKeepsLinked(handlers, s, id, now, clock);
  }

  lemma RoundKeepsLinked(handlers: set<string>, s: Store, id: string, now: int, clock: Reading)
    requires Linked(s) && id !in s.tracked && now <= clock.now
    requires forall k :: k in s.tracked ==> Waiting(s, k, now)
    ensures var s' := RestoredOne(handlers, s, id, now, clock);
      Linked(s') && forall k :: k in s'.tracked ==> Waiting(s', k, now)
  {
    var s' := RestoredOne(handlers, s, id, now, clock);
    forall k | k in s'.tracked
      ensures Waiting(s', k, now)
    {
      assert k != id ==> Waiting(s, k, now);
    }
  }

  lemma {:induction false} RestoreLoop(
    handlers: set<string>, s: Store, keys: seq<string>, now: int, clocks: seq<Reading>)
    requires |clocks| == |keys| && Restoring(s, keys, now)
    requires ListedOnce(handlers, s.records, keys, now)
    requires forall i :: 0 <= i < |clocks| ==> now <= clocks[i].now
    ensures var s' := Restored(handlers, s, keys, now, clocks);
      && Restoring(s', [], now)
      && forall id :: id in s'.records <==>
           id in s.records && (id in keys ==> Survives(handlers, s.records[id], now))
    decreases |keys|
  {
    if keys != [] {
      var s1 := RestoredOne(handlers, s, keys[0], now, clocks[0]);
      assert clocks[0].now >= now;
      RestoreRound(handlers, s, keys, now, clocks[0]);
      RestoreLoop(handlers, s1, keys[1..], now, clocks[1..]);
      assert keys == [keys[0]] + keys[1..];
    }
  }

  /** After a crash a restore brings back exactly the records that are still in the future, handled
      and requestable, each with one timer that has not fired, and leaves nothing else behind. */
  lemma RestoreIsExact(handlers: set<string>, records: map<string, Stored>, next: nat,
                       keys: seq<string>, now: int, clocks: seq<Reading>)
    requires |clocks| == |keys| && (forall i :: 0 <= i < |clocks| ==> now <= clocks[i].now)
    requires Elements(keys) == records.Keys && ListedOnce(handlers, records, keys, now)
    ensures var s := Restored(handlers, Store(map[], map[], records, next), keys, now, clocks);
      && Agree(s)
      && (forall id :: id in s.records <==> id in records && Survives(handlers, records[id], now))
      && forall id :: id in s.records ==> Waiting(s, id, now)
  {
    RestoreLoop(handlers, Store(map[], map[], records, next), keys, now, clocks);
    assert forall id :: id in records ==> id in Elements(keys);
  }

  // Redis may return a key more than once from one scan.

  /** A timer of the job that has not fired. */
  ghost predicate Awaits(s: Store, t: nat, id: string)
  {
    t in s.timers && s.timers[t].jobID == id && !s.timers[t].fired
  }

  /** The timer ids that are in use have been given out. */
  ghost predicate Numbered(s: Store)
  {
    forall t :: t in s.timers ==> t < s.next
  }

  /** However far a restore gets, the timers that there were stay as they are. */
  lemma {:induction false} TimersStay(
    handlers: set<string>, s: Store, keys: seq<string>, now: int, clocks: seq<Reading>, t: nat, id: string)
    requires |clocks| == |keys| && Numbered(s) && Awaits(s, t, id)
    ensures Awaits(Restored(handlers, s, keys, now, clocks), t, id)
    decreases |keys|
  {
    if keys != [] {
      TimersStay(handlers, RestoredOne(handlers, s, keys[0], now, clocks[0]), keys[1..], now, clocks[1..], t, id);
    }
  }

  /** A record that survives is still there, and survives, after a round for any key. */
  lemma RoundKeepsSurvivor(handlers: set<string>, s: Store, key: string, now: int, clock: Reading, id: string)
    requires now <= clock.now && Numbered(s) && id in s.records && Survives(handlers, s.records[id], now)
    ensures var s' := RestoredOne(handlers, s, key, now, clock);
      Numbered(s') && s.next <= s'.next && id in s'.records && Survives(handlers, s'.records[id], now)
  {
    if key == id {
      var at := Moment(RunAt(s.records[id]), clock.now);
      assert at / MILLISECOND * MILLISECOND > now;
    }
  }

  /** A surviving record whose key is listed gets a new timer. */
  lemma {:induction false} OneTimer(
    handlers: set<string>, s: Store, keys: seq<string>, now: int, clocks: seq<Reading>, j: nat)
    requires |clocks| == |keys| && (forall i :: 0 <= i < |clocks| ==> now <= clocks[i].now)
    requires Numbered(s) && j < |keys| && keys[j] in s.records && Survives(handlers, s.records[keys[j]], now)
    ensures exists u :: s.next <= u && Awaits(Restored(handlers, s, keys, now, clocks), u, keys[j])
    decreases |keys|
  {
    var s1 := RestoredOne(handlers, s, keys[0], now, clocks[0]);
    assert now <= clocks[0].now;
    RoundKeepsSurvivor(handlers, s, keys[0], now, clocks[0], keys[j]);
    if j == 0 {
      assert Awaits(s1, s.next, keys[0]);
      TimersStay(handlers, s1, keys[1..], now, clocks[1..], s.next, keys[0]);
      assert Awaits(Restored(handlers, s, keys, now, clocks), s.next, keys[j]);
    } else {
      assert keys[1..][j - 1] == keys[j];
      OneTimer(handlers, s1, keys[1..], now, clocks[1..], j - 1);
      var u :| s1.next <= u && Awaits(Restored(handlers, s1, keys[1..], now, clocks[1..]), u, keys[j]);
      assert Awaits(Restored(handlers, s, keys, now, clocks), u, keys[j]);
    }
  }

  ghost predicate TwiceAwaited(s: Store, id: string)
  {
    exists t, u :: t != u && Awaits(s, t, id) && Awaits(s, u, id)
  }

  /** One whose key is listed twice gets two. */
  lemma {:induction false} TwoTimers(handlers: set<string>, s: Store, keys: seq<string>, now: int, clocks: seq<Reading>,
                                     i: nat, j: nat)
    requires |clocks| == |keys| && (forall k :: 0 <= k < |clocks| ==> now <= clocks[k].now)
    requires Numbered(s)
    requires i < j < |keys| && keys[i] == keys[j] && keys[i] in s.records && Survives(handlers, s.records[keys[i]], now)
    ensures TwiceAwaited(Restored(handlers, s, keys, now, clocks), keys[i])
    decreases |keys|
  {
    var s1 := RestoredOne(handlers, s, keys[0], now, clocks[0]);
    assert now <= clocks[0].now;
    RoundKeepsSurvivor(handlers, s, keys[0], now, clocks[0], keys[i]);
    assert keys[1..][j - 1] == keys[j];
    if i == 0 {
      assert Awaits(s1, s.next, keys[0]) && s1.next == s.next + 1;
      TimersStay(handlers, s1, keys[1..], now, clocks[1..], s.next, keys[0]);
      OneTimer(handlers, s1, keys[1..], now, clocks[1..], j - 1);
    } else {
      assert keys[1..][i - 1] == keys[i];
      TwoTimers(handlers, s1, keys[1..], now, clocks[1..], i - 1, j - 1);
    }
  }

  /** The stores agree after a restore exactly when the scan lists no restored job twice. */
  lemma RestoreAgreesExactly(handlers: set<string>, records: map<string, Stored>, next: nat,
                             keys: seq<string>, now: int, clocks: seq<Reading>)
    requires |clocks| == |keys| && (forall i :: 0 <= i < |clocks| ==> now <= clocks[i].now)
    requires Elements(keys) == records.Keys
    ensures Agree(Restored(handlers, Store(map[], map[], records, next), keys, now, clocks))
         <==> ListedOnce(handlers, records, keys, now)
  {
    if ListedOnce(handlers, records, keys, now) {
      RestoreIsExact(handlers, records, next, keys, now, clocks);
    } else {
      var i, j :| 0 <= i < j < |keys| && keys[i] in records && keys[i] == keys[j]
               && Survives(handlers, records[keys[i]], now);
      TwoTimers(handlers, Store(map[], map[], records, next), keys, now, clocks, i, j);
    }
  }

  // ----- Runs -----

  /** A scheduler process in its surroundings. `sentBack` holds the requests that were answered with a
      nack, which may come again, `accepted` those that became jobs, by job id; `ran` lists the job ids in
      the order in which their handlers were called, and `lapsed` are the jobs that a restart dropped. */
  datatype World = World(
    store: Store, handlers: set<string>, up: bool, clock: int,
    asked: set<string>, sentBack: set<Request>, accepted: map<string, Request>, ran: seq<string>, lapsed: set<string>)

  datatype Event =
    | Tick(elapsed: nat)
    | Receive(request: Option<Request>, generated: string, reading: Reading)
    | Fire(timer: nat)     // the task of a timer begins: the handler is called
    | Finish(timer: nat)   // the handler has returned: the job is removed
    | Crash
    | Restart(registered: set<string>, keys: seq<string>, clocks: seq<Reading>)
    // A restart that crashes after `keys` in its restore loop.
    | RestartCut(registered: set<string>, keys: seq<string>, clocks: seq<Reading>)

  /** A request with an id of its own that has been sent back. */
  predicate ComesAgain(w: World, request: Request)
  {
    request in w.sentBack && request.jobID != ""
  }

  /** When an event can happen. A job id is asked for once, but for requests that have been sent back,
      a task ends before its timer repeats, and the clock does not go back. */
  ghost predicate Enabled(w: World, e: Event)
  {
    match e
    case Tick(_) => true
    case Receive(request, generated, reading) =>
      && w.up && w.clock <= reading.now <= reading.later
      && (request.Some? ==> IdOf(request.value, generated) !in w.asked || ComesAgain(w, request.value))
    case Fire(t) => w.up && t in w.store.timers && !w.store.timers[t].fired && w.store.timers[t].due <= w.clock
    case Finish(t) => w.up && t in w.store.timers && w.store.timers[t].fired
    case Crash => w.up
    case Restart(registered, keys, clocks) =>
      && !w.up && |clocks| == |keys| && Elements(keys) == w.store.records.Keys
      && forall i :: 0 <= i < |clocks| ==> w.clock <= clocks[i].now
    case RestartCut(_, keys, clocks) => !w.up && |clocks| == |keys|
  }

  function Max(a: int, b: int): int
  {
    if a > b then a else b
  }

  function Latest(clocks: seq<Reading>, now: int): int
  {
    if clocks == [] then now
    else Latest(clocks[1..], Max(clocks[0].now, Max(clocks[0].later, now)))
  }

  lemma {:induction false} LatestIsLater(clocks: seq<Reading>, now: int)
    ensures Latest(clocks, now) >= now
  {
    if clocks != [] {
      LatestIsLater(clocks[1..], Max(clocks[0].now, Max(clocks[0].later, now)));
    }
  }

  ghost function Next(w: World, e: Event): World
    requires Enabled(w, e)
  {
    match e
    case Tick(elapsed) => w.(clock := w.clock + elapsed)
    case Receive(request, generated, reading) =>
      if request == None then w
      else
        var req, id := request.value, IdOf(request.value, generated);
        var w' := w.(clock := reading.later, asked := w.asked + {id},
                     sentBack := if Answer(w.handlers, request, w.clock) == Nack then w.sentBack + {req}
                                 else w.sentBack - {req});
        if !Accepts(w.handlers, request, w.clock) then w'
        else
          w'.(accepted := w.accepted[id := req],
              store := Planned(w.store, id, req.taskType, req.runAtMs * MILLISECOND, req.data,
                               reading.now, reading.later))
    case Fire(t) =>
      w.(ran := w.ran + [w.store.timers[t].jobID],
         store := w.store.(timers := w.store.timers[t := w.store.timers[t].(fired := true)]))
    case Finish(t) => w.(store := Removed(w.store, w.store.timers[t].jobID))
    case Crash => w.(up := false, store := w.store.(timers := map[], tracked := map[]))
    case Restart(registered, keys, clocks) =>
      var s := Restored(registered, w.store, keys, w.clock, clocks);
      w.(up := true, handlers := registered, store := s, clock := Latest(clocks, w.clock),
         lapsed := w.lapsed + (w.store.records.Keys - s.records.Keys))
    case RestartCut(registered, keys, clocks) =>
      var s := Restored(registered, w.store, keys, w.clock, clocks);
      w.(store := Store(map[], map[], s.records, s.next), clock := Latest(clocks, w.clock),
         lapsed := w.lapsed + (w.store.records.Keys - s.records.Keys))
  }

  ghost predicate Initial(w: World)
  {
    && w.store == Store(map[], map[], map[], 0) && w.up
    && w.asked == {} && w.sentBack == {} && w.accepted == map[] && w.ran == [] && w.lapsed == {}
  }

  /** A restart whose scan lists no surviving key twice. */
  ghost predicate ListsOnce(w: World, e: Event)
  {
    e.Restart? ==> ListedOnce(e.registered, w.store.records, e.keys, w.clock)
  }

  /** The states that events pass through, the first one included, when no scan repeats a surviving key. */
  ghost predicate Follows(ws: seq<World>, es: seq<Event>)
  {
    && |ws| == |es| + 1
    && forall i :: 0 <= i < |es| ==>
         Enabled(ws[i], es[i]) && ListsOnce(ws[i], es[i]) && ws[i + 1] == Next(ws[i], es[i])
  }

  ghost predicate Run(ws: seq<World>, es: seq<Event>)
  {
    Follows(ws, es) && Initial(ws[0])
  }

  /** The job of a timer that has fired has run, and its record is past due. */
  ghost predicate TimerOk(w: World, t: nat)
    requires t in w.store.timers && w.store.timers[t].jobID in w.store.records
  {
    var timer, r := w.store.timers[t], w.store.records[w.store.timers[t].jobID];
    && r.Record? && RunAt(r) <= timer.due && timer.taskType == r.taskType && timer.data == r.data
    && (timer.fired <==> timer.jobID in w.ran)
    && (timer.fired ==> timer.due <= w.clock)
  }

  /** The record of an accepted job has its task type and data, and does not bring it forward. */
  ghost predicate AcceptedFor(w: World, id: string)
    requires id in w.store.records
  {
    && id in w.accepted && w.store.records[id].Record?
    && w.store.records[id].taskType == w.accepted[id].taskType && w.store.records[id].data == w.accepted[id].data
    && w.accepted[id].runAtMs <= w.store.records[id].runAtMs
  }

  /** A request that was sent back has not become a job, and will not when it comes again. */
  ghost predicate NotAccepted(w: World, request: Request)
  {
    && request.taskType !in REQUESTABLE
    && (request.jobID != "" ==> request.jobID in w.asked && request.jobID !in w.accepted)
  }

  ghost predicate Inv(w: World)
  {
    && NoRepeats(w.ran)
    && w.accepted.Keys <= w.asked
    && (forall id :: id in w.store.records ==> AcceptedFor(w, id))
    && (forall r :: r in w.sentBack ==> NotAccepted(w, r))
    && (forall id :: id in w.ran ==> id in w.accepted)
    && (forall id :: id in w.accepted ==> id in w.ran || id in w.store.records || id in w.lapsed)
    && (w.up ==> Agree(w.store) && forall t :: t in w.store.timers ==> TimerOk(w, t))
    && (!w.up ==>
          && w.store.timers == map[] && w.store.tracked == map[]
          && forall id :: id in w.store.records && id in w.ran ==>
               w.store.records[id].Record? && RunAt(w.store.records[id]) <= w.clock)
  }

  /** However far a restore gets, it adds no record, brings none forward, and leaves one that is past
      due as it is or drops it. */
  lemma {:induction false} RestoreAddsNothing(handlers: set<string>, s: Store, keys: seq<string>, now: int,
                                              clocks: seq<Reading>, id: string)
    requires |clocks| == |keys|
    ensures var s' := Restored(handlers, s, keys, now, clocks);
      id in s'.records ==>
        && id in s.records && (!Survives(handlers, s.records[id], now) ==> s'.records[id] == s.records[id])
        && (s.records[id].Record? ==>
              SameTask(s.records[id], s'.records[id]) && s.records[id].runAtMs <= s'.records[id].runAtMs)
    decreases |keys|
  {
    if keys != [] {
      var s1 := RestoredOne(handlers, s, keys[0], now, clocks[0]);
      RestoreAddsNothing(handlers, s1, keys[1..], now, clocks[1..], id);
    }
  }

  lemma RestartKeepsInv(w: World, e: Event)
    requires Inv(w) && e.Restart? && Enabled(w, e) && ListsOnce(w, e)
    ensures Inv(Next(w, e))
  {
    var w' := Next(w, e);
    assert w.store == Store(map[], map[], w.store.records, w.store.next);
    RestoreIsExact(e.registered, w.store.records, w.store.next, e.keys, w.clock, e.clocks);
    LatestIsLater(e.clocks, w.clock);
    forall id | id in w'.store.records
      ensures AcceptedFor(w', id)
    {
      RestoreAddsNothing(e.registered, w.store, e.keys, w.clock, e.clocks, id);
      assert AcceptedFor(w, id);
    }
    forall t | t in w'.store.timers
      ensures TimerOk(w', t)
    {
      var id := w'.store.timers[t].jobID;
      assert Waiting(w'.store, id, w.clock);
      assert id in w.store.records && Survives(e.registered, w.store.records[id], w.clock);
    }
  }

  lemma RestartCutKeepsInv(w: World, e: Event)
    requires Inv(w) && e.RestartCut? && Enabled(w, e)
    ensures Inv(Next(w, e))
  {
    var w' := Next(w, e);
    LatestIsLater(e.clocks, w.clock);
    forall id | id in w'.store.records
      ensures id in w.store.records
      ensures id in w'.ran ==> w'.store.records[id] == w.store.records[id]
      ensures AcceptedFor(w', id)
    {
      assert id in w.store.records ==> AcceptedFor(w, id);
      RestoreAddsNothing(e.registered, w.store, e.keys, w.clock, e.clocks, id);
    }
  }

  /** The record of a job that is scheduled keeps it between the time that was asked for and the timer. */
  lemma PlannedForItsTime(s: Store, jobID: string, taskType: string, runAtMs: int, data: string, now: int, later: int)
    requires now <= later
    ensures var s' := Planned(s, jobID, taskType, runAtMs * MILLISECOND, data, now, later);
      runAtMs * MILLISECOND <= RunAt(s'.records[jobID]) <= s'.timers[s.next].due
  {
  }

  lemma AcceptingKeepsInv(w: World, id: string, r: Request, reading: Reading)
    requires Inv(w) && w.up && id !in w.asked && w.clock <= reading.now <= reading.later
    ensures Inv(w.(clock := reading.later, asked := w.asked + {id},
                   sentBack := w.sentBack - {r}, accepted := w.accepted[id := r],
                   store := Planned(w.store, id, r.taskType, r.runAtMs * MILLISECOND, r.data,
                                    reading.now, reading.later)))
  {
    var w' := w.(clock := reading.later, asked := w.asked + {id},
                 sentBack := w.sentBack - {r}, accepted := w.accepted[id := r],
                 store := Planned(w.store, id, r.taskType, r.runAtMs * MILLISECOND, r.data,
                                  reading.now, reading.later));
    assert id !in w.accepted;
    assert id !in w.store.records by {
      assert id in w.store.records ==> AcceptedFor(w, id);
    }
    PlanningAgrees(w.store, id, r.taskType, r.runAtMs * MILLISECOND, r.data, reading.now, reading.later);
    PlannedForItsTime(w.store, id, r.taskType, r.runAtMs, r.data, reading.now, reading.later);
    forall k | k in w'.store.records
      ensures AcceptedFor(w', k)
    {
      assert k != id ==> AcceptedFor(w, k);
    }
    forall q | q in w'.sentBack
      ensures NotAccepted(w', q)
    {
      assert NotAccepted(w, q);
    }
    forall t | t in w'.store.timers
      ensures TimerOk(w', t)
    {
      assert t != w.store.next ==> TimerOk(w, t);
    }
  }

  lemma ReceiveKeepsInv(w: World, e: Event)
    requires Inv(w) && Enabled(w, e) && e.Receive?
    ensures Inv(Next(w, e))
  {
    if e.request.Some? && Accepts(w.handlers, e.request, w.clock) {
      assert e.request.value in w.sentBack ==> NotAccepted(w, e.request.value);
      AcceptingKeepsInv(w, IdOf(e.request.value, e.generated), e.request.value, e.reading);
    } else {
      var w' := Next(w, e);
      assert forall k :: k in w.store.records ==> AcceptedFor(w, k);
      assert forall t :: t in w.store.timers ==> TimerOk(w, t);
      forall q | q in w'.sentBack
        ensures NotAccepted(w', q)
      {
        assert q in w.sentBack ==> NotAccepted(w, q);
      }
    }
  }

  lemma FireKeepsInv(w: World, e: Event)
    requires Inv(w) && Enabled(w, e) && e.Fire?
    ensures Inv(Next(w, e))
  {
    var w', id := Next(w, e), w.store.timers[e.timer].jobID;
    assert TimerOk(w, e.timer);
    forall u | u in w'.store.timers
      ensures TimerOk(w', u)
    {
      assert TimerOk(w, u);
      assert u != e.timer ==> w.store.timers[u].jobID != id;
    }
    forall k | k in w'.store.records
      ensures AcceptedFor(w', k)
    {
      assert AcceptedFor(w, k);
    }
  }

  lemma FinishKeepsInv(w: World, e: Event)
    requires Inv(w) && Enabled(w, e) && e.Finish?
    ensures Inv(Next(w, e))
  {
    var w' := Next(w, e);
    assert TimerOk(w, e.timer);
    RemovalAgrees(w.store, w.store.timers[e.timer].jobID);
    forall u | u in w'.store.timers
      ensures TimerOk(w', u)
    {
      assert TimerOk(w, u);
    }
    forall k | k in w'.store.records
      ensures AcceptedFor(w', k)
    {
      assert AcceptedFor(w, k);
    }
  }

  lemma CrashKeepsInv(w: World, e: Event)
    requires Inv(w) && Enabled(w, e) && e.Crash?
    ensures Inv(Next(w, e))
  {
    var w' := Next(w, e);
    forall id | id in w'.store.records && id in w'.ran
      ensures w'.store.records[id].Record? && RunAt(w'.store.records[id]) <= w'.clock
    {
      assert TimerOk(w, w.store.tracked[id]);
    }
  }

  lemma StepKeepsInv(w: World, e: Event)
    requires Inv(w) && Enabled(w, e) && ListsOnce(w, e)
    ensures Inv(Next(w, e))
  {
    match e {
      case Restart(_, _, _) => RestartKeepsInv(w, e);
      case RestartCut(_, _, _) => RestartCutKeepsInv(w, e);
      case Receive(_, _, _) => ReceiveKeepsInv(w, e);
      case Fire(_) => FireKeepsInv(w, e);
      case Finish(_) => FinishKeepsInv(w, e);
      case Crash => CrashKeepsInv(w, e);
      case Tick(_) =>
        assert w.up ==> forall u :: u in w.store.timers ==> TimerOk(w, u);
    }
  }

  lemma {:induction false} FollowingKeepsInv(ws: seq<World>, es: seq<Event>, i: nat)
    requires Follows(ws, es) && Inv(ws[0]) && i < |ws|
    ensures Inv(ws[i])
  {
    if i > 0 {
      FollowingKeepsInv(ws, es, i - 1);
      StepKeepsInv(ws[i - 1], es[i - 1]);
    }
  }

  lemma RunsKeepInv(ws: seq<World>, es: seq<Event>, i: nat)
    requires Run(ws, es) && i < |ws|
    ensures Inv(ws[i])
  {
    FollowingKeepsInv(ws, es, i);
  }

  /** Over every run the three stores of a running scheduler name the same jobs, with one timer each. */
  lemma StoresAlwaysAgree(ws: seq<World>, es: seq<Event>, i: nat)
    requires Run(ws, es) && i < |ws| && ws[i].up
    ensures var s := ws[i].store;
      && s.tracked.Keys == s.records.Keys
      && (set t | t in s.timers :: s.timers[t].jobID) == s.records.Keys
      && forall t, u :: t in s.timers && u in s.timers && s.timers[t].jobID == s.timers[u].jobID ==> t == u
  {
    RunsKeepInv(ws, es, i);
    var s := ws[i].store;
    var ids := set t | t in s.timers :: s.timers[t].jobID;
    assert ids == s.records.Keys by {
      forall id | id in s.records
        ensures id in ids
      {
        assert s.tracked[id] in s.timers;
      }
    }
  }

  /** Over every run no handler is called twice for one job, although a crash may come between the
      handler and the removal of its record; and a job that was accepted has run, is still
      recorded, or was dropped by a restart. */
  lemma HandlersRunOnce(ws: seq<World>, es: seq<Event>, i: nat)
    requires Run(ws, es) && i < |ws|
    ensures NoRepeats(ws[i].ran)
    ensures forall id :: id in ws[i].accepted ==>
      id in ws[i].ran || id in ws[i].store.records || id in ws[i].lapsed
  {
    RunsKeepInv(ws, es, i);
  }

  /** Over every run a handler is called with the task type and data that its job was accepted with, and
      not before the time that it was accepted for, however many restarts come in between. */
  lemma NeverEarly(ws: seq<World>, es: seq<Event>, i: nat)
    requires Run(ws, es) && i < |es| && es[i].Fire?
    ensures var timer := ws[i].store.timers[es[i].timer];
      && timer.jobID in ws[i].accepted
      && var request := ws[i].accepted[timer.jobID];
         && request.runAtMs * 1_000_000 <= ws[i].clock
         && timer.taskType == request.taskType && timer.data == request.data
  {
    RunsKeepInv(ws, es, i);
    assert TimerOk(ws[i], es[i].timer);
    assert AcceptedFor(ws[i], ws[i].store.timers[es[i].timer].jobID);
  }

  lemma AcceptedStays(ws: seq<World>, es: seq<Event>, i: nat, n: nat, id: string)
    requires Run(ws, es) && i <= n < |ws| && id in ws[i].accepted
    ensures id in ws[n].accepted
    decreases n - i
  {
    if i < n {
      assert ws[i + 1] == Next(ws[i], es[i]);
      AcceptedStays(ws, es, i + 1, n, id);
    }
  }

  /** Over every run in which requests that were answered with a nack may come again: a request under
      the id of a job that was accepted does not. */
  lemma AcceptedIsNotRedelivered(ws: seq<World>, es: seq<Event>, i: nat, n: nat)
    requires Run(ws, es) && i < n < |es| && es[i].Receive? && Accepts(ws[i].handlers, es[i].request, ws[i].clock)
    requires es[n].Receive? && es[n].request.Some?
    ensures IdOf(es[n].request.value, es[n].generated) != IdOf(es[i].request.value, es[i].generated)
  {
    var id := IdOf(es[i].request.value, es[i].generated);
    assert ws[i + 1] == Next(ws[i], es[i]);
    AcceptedStays(ws, es, i + 1, n, id);
    RunsKeepInv(ws, es, n);
    assert es[n].request.value in ws[n].sentBack ==> NotAccepted(ws[n], es[n].request.value);
  }

  /** What a restart in a run drops is past due, or has lost its handler; a job that has run is never
      brought back, and one that is still in the future with its handler always is. */
  lemma RestartKeepsFutureJobs(ws: seq<World>, es: seq<Event>, i: nat)
    requires Run(ws, es) && i < |es| && es[i].Restart?
    ensures forall id :: id in ws[i].store.records ==>
      ws[i].store.records[id].Record? &&
      (id in ws[i + 1].store.records <==>
         var r := ws[i].store.records[id];
         r.runAtMs * 1_000_000 > ws[i].clock && r.taskType in es[i].registered && r.taskType in REQUESTABLE)
    ensures forall id :: id in ws[i + 1].store.records ==>
      id in ws[i].store.records && SameTask(ws[i].store.records[id], ws[i + 1].store.records[id])
    ensures forall id :: id in ws[i].store.records && id in ws[i].ran ==> id !in ws[i + 1].store.records
  {
    var w, e := ws[i], es[i];
    RunsKeepInv(ws, es, i);
    forall id | id in w.store.records
      ensures w.store.records[id].Record?
    {
      assert AcceptedFor(w, id);
    }
    forall id | id in ws[i + 1].store.records
      ensures id in w.store.records && SameTask(w.store.records[id], ws[i + 1].store.records[id])
    {
      RestoreAddsNothing(e.registered, w.store, e.keys, w.clock, e.clocks, id);
    }
    assert w.store == Store(map[], map[], w.store.records, w.store.next);
    RestoreIsExact(e.registered, w.store.records, w.store.next, e.keys, w.clock, e.clocks);
  }

  // ----- Scans that repeat a key -----

  /** Events can follow, whose scans repeat no surviving key, after which a handler has been called
      twice for one job. */
  ghost predicate CanRunTwice(w: World)
  {
    exists ws: seq<World>, es: seq<Event> :: Follows(ws, es) && ws[0] == w && !NoRepeats(ws[|es|].ran)
  }

  /** When both timers are due, both fire. */
  lemma FireBoth(w: World, id: string, t: nat, u: nat)
    requires w.up && t != u && Awaits(w.store, t, id) && Awaits(w.store, u, id)
    ensures CanRunTwice(w)
  {
    var elapsed := Max(0, Max(w.store.timers[t].due, w.store.timers[u].due) - w.clock);
    var w1 := Next(w, Tick(elapsed));
    var w2 := Next(w1, Fire(t));
    var w3 := Next(w2, Fire(u));
    var ws, es := [w, w1, w2, w3], [Tick(elapsed), Fire(t), Fire(u)];
    assert Follows(ws, es);
    assert w3.ran == w.ran + [id] + [id];
    assert w3.ran[|w.ran|] == w3.ran[|w.ran| + 1];
  }

  /** A restart in a run lets a handler be called twice for one job exactly when its scan returns the
      key of a surviving record twice. */
  lemma RunsTwiceExactly(ws: seq<World>, es: seq<Event>, e: Event)
    requires Run(ws, es) && e.Restart? && Enabled(ws[|es|], e)
    ensures CanRunTwice(Next(ws[|es|], e))
       <==> !ListedOnce(e.registered, ws[|es|].store.records, e.keys, ws[|es|].clock)
  {
    var w := ws[|es|];
    RunsKeepInv(ws, es, |es|);
    if ListsOnce(w, e) {
      StepKeepsInv(w, e);
      forall vs: seq<World>, fs: seq<Event> | Follows(vs, fs) && vs[0] == Next(w, e)
        ensures NoRepeats(vs[|fs|].ran)
      {
        FollowingKeepsInv(vs, fs, |fs|);
      }
    } else {
      var i, j :| 0 <= i < j < |e.keys| && e.keys[i] in w.store.records && e.keys[i] == e.keys[j]
               && Survives(e.registered, w.store.records[e.keys[i]], w.clock);
      TwoTimers(e.registered, w.store, e.keys, w.clock, e.clocks, i, j);
      var s := Restored(e.registered, w.store, e.keys, w.clock, e.clocks);
      var t, u :| t != u && Awaits(s, t, e.keys[i]) && Awaits(s, u, e.keys[i]);
      FireBoth(Next(w, e), e.keys[i], t, u);
    }
  }
}
