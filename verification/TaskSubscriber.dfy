/** A batch of messages that goroutines process under a semaphore, and the fate of each message
    (services/worker/task_subscriber.go). */
module TaskSubscriber {
  import opened Text

  const MAX_CONCURRENT_ENQUEUES := 20
  const TASK_SUBJECT_PREFIX := "task."

  // ----- The task type of a subject -----

  /** `strings.LastIndex(s, c)`, or -1. */
  function LastIndex(s: string, c: char): (i: int)
    ensures -1 <= i < |s| && (i >= 0 ==> s[i] == c)
    ensures forall j :: i < j < |s| ==> s[j] != c
  {
    if s == "" then -1 else if s[|s| - 1] == c then |s| - 1 else LastIndex(s[..|s| - 1], c)
  }

  function GetTaskTypeFromSubject(subject: string): string
  {
    if !(TASK_SUBJECT_PREFIX <= subject) then ""
    else
      var after := subject[|TASK_SUBJECT_PREFIX|..];
      if after == "" then ""
      else
        var idx := LastIndex(after, '.');
        if idx >= 0 then after[idx + 1..] else after
  }

  /** The last separator of a text that begins with `prefix` is that of the rest, or stands at the end of `prefix`. */
  lemma LastIndexAfter(subject: string, prefix: string, c: char)
    requires prefix != "" && prefix <= subject && prefix[|prefix| - 1] == c
    ensures LastIndex(subject, c) == |prefix| + LastIndex(subject[|prefix|..], c)
  {
    var after, n := subject[|prefix|..], |prefix|;
    var idx := LastIndex(after, c);
    assert subject[n - 1] == prefix[n - 1];
    forall j | n + idx < j < |subject|
      ensures subject[j] != c
    {
      assert subject[j] == after[j - n];
    }
    LastIndexUnique(subject, c, n + idx);
  }

  /** What follows the last separator of the rest, or the rest, follows the last separator of all. */
  lemma RestAfterSeparator(subject: string, prefix: string, c: char)
    requires prefix != "" && prefix <= subject && prefix[|prefix| - 1] == c
    ensures LastIndex(subject, c) >= 0
    ensures var after := subject[|prefix|..];
      after[LastIndex(after, c) + 1..] == subject[LastIndex(subject, c) + 1..]
  {
    LastIndexAfter(subject, prefix, c);
  }

  lemma TaskTypeFollowsLastDot(subject: string)
    requires TASK_SUBJECT_PREFIX <= subject
    ensures LastIndex(subject, '.') >= 0
    ensures GetTaskTypeFromSubject(subject) == subject[LastIndex(subject, '.') + 1..]
  {
    RestAfterSeparator(subject, TASK_SUBJECT_PREFIX, '.');
  }

  /** `t` is what follows some dot, and has none itself. */
  ghost predicate LastSegment(subject: string, t: string)
  {
    Without(t, '.') && exists i :: 0 <= i < |subject| && subject[i] == '.' && subject[i + 1..] == t
  }

  /** The task type of a subject that starts with `task.` is its last segment, and nothing else is; any
      other subject has none. */
  lemma TaskTypeMeaning(subject: string, taskType: string)
    ensures GetTaskTypeFromSubject(subject) == taskType
       <==> if "task." <= subject then LastSegment(subject, taskType) else taskType == ""
  {
    if TASK_SUBJECT_PREFIX <= subject {
      TaskTypeFollowsLastDot(subject);
      var last := LastIndex(subject, '.');
      SegmentAfterDot(subject, last);
      if LastSegment(subject, taskType) {
        var i :| 0 <= i < |subject| && subject[i] == '.' && subject[i + 1..] == taskType;
        SegmentStartsAtLastDot(subject, taskType, i);
      }
    }
  }

  lemma SegmentAfterDot(subject: string, i: int)
    requires 0 <= i < |subject| && subject[i] == '.' && forall j :: i < j < |subject| ==> subject[j] != '.'
    ensures LastSegment(subject, subject[i + 1..])
  {
  }

  lemma SegmentStartsAtLastDot(subject: string, t: string, i: int)
    requires 0 <= i < |subject| && subject[i] == '.' && subject[i + 1..] == t && Without(t, '.')
    ensures LastIndex(subject, '.') == i
  {
    forall j | i < j < |subject|
      ensures subject[j] != '.'
    {
      assert subject[j] == t[j - i - 1];
    }
    LastIndexUnique(subject, '.', i);
  }

  lemma LastIndexUnique(s: string, c: char, i: int)
    requires -1 <= i < |s| && (i >= 0 ==> s[i] == c) && forall j :: i < j < |s| ==> s[j] != c
    ensures LastIndex(s, c) == i
  {
  }

  // ----- One message -----

  datatype Verdict = Acked | Nacked

  /** A message, with the outcome that enqueueing it has. */
  datatype Message = Message(subject: string, enqueueFails: bool)

  function VerdictOf(m: Message): Verdict
  {
    if GetTaskTypeFromSubject(m.subject) != "" && m.enqueueFails then Nacked else Acked
  }

  class Delivery {
    const message: Message
    var verdicts: seq<Verdict>  // the calls of ack and nack
    var enqueued: seq<string>   // the task types that it was enqueued with

    constructor (message: Message)
      ensures this.message == message && verdicts == [] && enqueued == []
    {
      this.message := message;
      verdicts, enqueued := [], [];
    }

    method ProcessMessage()
      modifies this
      ensures verdicts == old(verdicts) + [VerdictOf(message)]
      ensures var taskType := GetTaskTypeFromSubject(message.subject);
        && (verdicts == old(verdicts) + [if taskType != "" && message.enqueueFails then Nacked else Acked])
        && enqueued == old(enqueued) + if taskType != "" && !message.enqueueFails then [taskType] else []
    {
      var taskType := GetTaskTypeFromSubject(message.subject);
      if taskType == "" {
        verdicts := verdicts + [Acked];
        return;
      }
      if message.enqueueFails {
        verdicts := verdicts + [Nacked];
        return;
      }
      enqueued := enqueued + [taskType];
      verdicts := verdicts + [Acked];
    }
  }

  // ----- A batch -----

  /** A goroutine, from before it is started to after its deferred calls. */
  datatype Phase = Unborn | Started | Processing | Processed | Released | Finished

  /** The caller: about to look at message `i`, waiting for the semaphore with it, holding the
      semaphore for it, waiting for all, or back from the call. */
  datatype Caller = AtMessage(i: nat) | Blocked(i: nat) | Spawning(i: nat) | WaitingForAll | Returned

  datatype Batch = Batch(
    messages: seq<Message>, caller: Caller, phases: seq<Phase>, semaphore: nat, waitGroup: nat,
    verdicts: seq<seq<Verdict>>)

  datatype Step =
    | Add                // wg.Add(1)
    | Acquire            // sem <- struct{}{}
    | Spawn              // go func...
    | EndLoop
    | Begin(i: nat)      // the processor is called
    | End(i: nat)        // and returns
    | Release(i: nat)    // <-sem
    | Done(i: nat)       // wg.Done()
    | Return

  predicate In(b: Batch, i: nat, p: Phase)
  {
    i < |b.phases| && b.phases[i] == p
  }

  predicate Enabled(b: Batch, s: Step)
  {
    match s
    case Add => b.caller.AtMessage? && b.caller.i < |b.messages|
    case Acquire => b.caller.Blocked? && b.semaphore < MAX_CONCURRENT_ENQUEUES
    case Spawn => b.caller.Spawning? && In(b, b.caller.i, Unborn)
    case EndLoop => b.caller.AtMessage? && b.caller.i >= |b.messages|
    case Begin(i) => In(b, i, Started)
    case End(i) => In(b, i, Processing) && i < |b.messages| && i < |b.verdicts|
    case Release(i) => In(b, i, Processed) && b.semaphore > 0
    case Done(i) => In(b, i, Released) && b.waitGroup > 0
    case Return => b.caller.WaitingForAll? && b.waitGroup == 0
  }

  function Next(b: Batch, s: Step): Batch
    requires Enabled(b, s)
  {
    match s
    case Add => b.(caller := Blocked(b.caller.i), waitGroup := b.waitGroup + 1)
    case Acquire => b.(caller := Spawning(b.caller.i), semaphore := b.semaphore + 1)
    case Spawn => b.(caller := AtMessage(b.caller.i + 1), phases := b.phases[b.caller.i := Started])
    case EndLoop => b.(caller := WaitingForAll)
    case Begin(i) => b.(phases := b.phases[i := Processing])
    case End(i) =>
      b.(phases := b.phases[i := Processed], verdicts := b.verdicts[i := b.verdicts[i] + [VerdictOf(b.messages[i])]])
    case Release(i) => b.(phases := b.phases[i := Released], semaphore := b.semaphore - 1)
    case Done(i) => b.(phases := b.phases[i := Finished], waitGroup := b.waitGroup - 1)
    case Return => b.(caller := Returned)
  }

  /** `processBatchInParallel` as it is called: with no messages it returns at once. */
  function Start(messages: seq<Message>): Batch
  {
    Batch(messages, if messages == [] then Returned else AtMessage(0),
          seq(|messages|, _ => Unborn), 0, 0, seq(|messages|, _ => []))
  }

  ghost predicate Run(messages: seq<Message>, bs: seq<Batch>, ss: seq<Step>)
  {
    && |bs| == |ss| + 1 && bs[0] == Start(messages)
    && forall k :: 0 <= k < |ss| ==> Enabled(bs[k], ss[k]) && bs[k + 1] == Next(bs[k], ss[k])
  }

  // ----- Counting goroutines -----

  function Count(phases: seq<Phase>, ps: set<Phase>): nat
  {
    if phases == [] then 0 else (if phases[0] in ps then 1 else 0) + Count(phases[1..], ps)
  }

  lemma {:induction false} CountUpdate(phases: seq<Phase>, i: nat, p: Phase, ps: set<Phase>)
    requires i < |phases|
    ensures Count(phases[i := p], ps)
         == Count(phases, ps) - (if phases[i] in ps then 1 else 0) + (if p in ps then 1 else 0)
  {
    if i == 0 {
      assert phases[i := p][1..] == phases[1..];
    } else {
      assert phases[i := p][1..] == phases[1..][i - 1 := p];
      CountUpdate(phases[1..], i - 1, p, ps);
    }
  }

  lemma {:induction false} CountPositive(phases: seq<Phase>, ps: set<Phase>) returns (i: nat)
    requires Count(phases, ps) > 0
    ensures i < |phases| && phases[i] in ps
  {
    if phases[0] in ps {
      i := 0;
    } else {
      i := CountPositive(phases[1..], ps);
      i := i + 1;
    }
  }

  lemma {:induction false} CountMonotone(phases: seq<Phase>, ps: set<Phase>, qs: set<Phase>)
    requires ps <= qs
    ensures Count(phases, ps) <= Count(phases, qs)
  {
    if phases != [] {
      CountMonotone(phases[1..], ps, qs);
    }
  }

  lemma {:induction false} CountZero(phases: seq<Phase>, ps: set<Phase>)
    requires forall i :: 0 <= i < |phases| ==> phases[i] !in ps
    ensures Count(phases, ps) == 0
  {
    if phases != [] {
      CountZero(phases[1..], ps);
    }
  }

  lemma {:induction false} CountMember(phases: seq<Phase>, ps: set<Phase>, i: nat)
    requires i < |phases| && phases[i] in ps
    ensures Count(phases, ps) > 0
  {
    if i > 0 {
      CountMember(phases[1..], ps, i - 1);
    }
  }

  // ----- What every run keeps -----

  const HOLDING := {Started, Processing, Processed}
  const ALIVE := {Started, Processing, Processed, Released}

  /** How many messages have been given to a goroutine. */
  function Spawned(b: Batch): nat
  {
    match b.caller
    case AtMessage(i) => i
    case Blocked(i) => i
    case Spawning(i) => i
    case _ => |b.messages|
  }

  ghost predicate Inv(b: Batch)
  {
    && |b.phases| == |b.messages| == |b.verdicts| && Spawned(b) <= |b.messages|
    && (b.caller.Blocked? || b.caller.Spawning? ==> b.caller.i < |b.messages|)
    && (forall i :: 0 <= i < |b.phases| ==> (b.phases[i] == Unborn <==> i >= Spawned(b)))
    && b.semaphore == Count(b.phases, HOLDING) + (if b.caller.Spawning? then 1 else 0) <= MAX_CONCURRENT_ENQUEUES
    && b.waitGroup == Count(b.phases, ALIVE) + (if b.caller.Blocked? || b.caller.Spawning? then 1 else 0)
    && (b.caller.Returned? ==> b.waitGroup == 0)
    && (forall i :: 0 <= i < |b.phases| ==>
          b.verdicts[i] == if b.phases[i] in {Unborn, Started, Processing} then [] else [VerdictOf(b.messages[i])])
  }

  lemma CountMove(phases: seq<Phase>, i: nat, p: Phase)
    requires i < |phases| && phases[i] != Finished && p != Unborn && Rank(p) == Rank(phases[i]) - 1
    ensures Count(phases[i := p], HOLDING)
         == Count(phases, HOLDING) + if p == Started then 1 else if p == Released then -1 else 0
    ensures Count(phases[i := p], ALIVE)
         == Count(phases, ALIVE) + if p == Started then 1 else if p == Finished then -1 else 0
  {
    CountUpdate(phases, i, p, HOLDING);
    CountUpdate(phases, i, p, ALIVE);
  }

  lemma SpawnKeepsInv(b: Batch, s: Step)
    requires Inv(b) && Enabled(b, s) && s.Spawn?
    ensures Inv(Next(b, s))
  {
    CountMove(b.phases, b.caller.i, Started);
  }

  lemma BeginKeepsInv(b: Batch, s: Step)
    requires Inv(b) && Enabled(b, s) && s.Begin?
    ensures Inv(Next(b, s))
  {
    CountMove(b.phases, s.i, Processing);
  }

  lemma EndKeepsInv(b: Batch, s: Step)
    requires Inv(b) && Enabled(b, s) && s.End?
    ensures Inv(Next(b, s))
  {
    CountMove(b.phases, s.i, Processed);
  }

  lemma ReleaseKeepsInv(b: Batch, s: Step)
    requires Inv(b) && Enabled(b, s) && s.Release?
    ensures Inv(Next(b, s))
  {
    CountMove(b.phases, s.i, Released);
  }

  lemma DoneKeepsInv(b: Batch, s: Step)
    requires Inv(b) && Enabled(b, s) && s.Done?
    ensures Inv(Next(b, s))
  {
    CountMove(b.phases, s.i, Finished);
  }

  lemma StepKeepsInv(b: Batch, s: Step)
    requires Inv(b) && Enabled(b, s)
    ensures Inv(Next(b, s))
  {
    match s {
      case Spawn => SpawnKeepsInv(b, s);
      case Begin(_) => BeginKeepsInv(b, s);
      case End(_) => EndKeepsInv(b, s);
      case Release(_) => ReleaseKeepsInv(b, s);
      case Done(_) => DoneKeepsInv(b, s);
      case _ =>
    }
  }

  lemma {:induction false} RunsKeepInv(messages: seq<Message>, bs: seq<Batch>, ss: seq<Step>, n: nat)
    requires Run(messages, bs, ss) && n < |bs|
    ensures Inv(bs[n]) && bs[n].messages == messages
  {
    if n > 0 {
      RunsKeepInv(messages, bs, ss, n - 1);
      StepKeepsInv(bs[n - 1], ss[n - 1]);
    } else {
      CountZero(bs[0].phases, HOLDING);
      CountZero(bs[0].phases, ALIVE);
    }
  }

  /** In every interleaving, never more than the allowed number of processors run at once. */
  lemma BoundedConcurrency(messages: seq<Message>, bs: seq<Batch>, ss: seq<Step>, n: nat)
    requires Run(messages, bs, ss) && n < |bs|
    ensures Count(bs[n].phases, {Processing}) <= 20
  {
    RunsKeepInv(messages, bs, ss, n);
    CountMonotone(bs[n].phases, {Processing}, HOLDING);
  }

  /** In every interleaving, when the call returns each message has been processed, and was
      acknowledged or sent back, once. */
  lemma ReturnMeansProcessed(messages: seq<Message>, bs: seq<Batch>, ss: seq<Step>, n: nat)
    requires Run(messages, bs, ss) && n < |bs| && bs[n].caller.Returned?
    ensures |bs[n].phases| == |bs[n].verdicts| == |messages|
    ensures forall i :: 0 <= i < |messages| ==>
      && bs[n].phases[i] == Finished && |bs[n].verdicts[i]| == 1
      && (bs[n].verdicts[i] == [Nacked] <==>
            GetTaskTypeFromSubject(messages[i].subject) != "" && messages[i].enqueueFails)
  {
    RunsKeepInv(messages, bs, ss, n);
    var b := bs[n];
    forall i | 0 <= i < |messages|
      ensures b.phases[i] == Finished
    {
      if b.phases[i] in ALIVE {
        CountMember(b.phases, ALIVE, i);
      }
    }
  }

  /** In every interleaving, until the call returns some step can be taken: there is no deadlock. */
  lemma NoDeadlock(messages: seq<Message>, bs: seq<Batch>, ss: seq<Step>, n: nat) returns (s: Step)
    requires Run(messages, bs, ss) && n < |bs| && !bs[n].caller.Returned?
    ensures Enabled(bs[n], s)
  {
    RunsKeepInv(messages, bs, ss, n);
    var b := bs[n];
    if b.caller.AtMessage? {
      s := if b.caller.i < |b.messages| then Add else EndLoop;
    } else if b.caller.Spawning? {
      s := Spawn;
    } else if b.caller.Blocked? && b.semaphore < MAX_CONCURRENT_ENQUEUES {
      s := Acquire;
    } else if b.caller.WaitingForAll? && b.waitGroup == 0 {
      s := Return;
    } else {
      if b.caller.Blocked? {
        CountMonotone(b.phases, HOLDING, ALIVE);
      }
      var i := CountPositive(b.phases, ALIVE);
      if b.phases[i] in HOLDING {
        CountMember(b.phases, HOLDING, i);
      }
      s := match b.phases[i]
           case Started => Begin(i)
           case Processing => End(i)
           case Processed => Release(i)
           case _ => Done(i);
    }
  }

  function Rank(p: Phase): nat
  {
    match p
    case Unborn => 5
    case Started => 4
    case Processing => 3
    case Processed => 2
    case Released => 1
    case Finished => 0
  }

  function Total(phases: seq<Phase>): nat
  {
    if phases == [] then 0 else Rank(phases[0]) + Total(phases[1..])
  }

  lemma {:induction false} TotalUpdate(phases: seq<Phase>, i: nat, p: Phase)
    requires i < |phases|
    ensures Total(phases[i := p]) == Total(phases) - Rank(phases[i]) + Rank(p)
  {
    if i == 0 {
      assert phases[i := p][1..] == phases[1..];
    } else {
      assert phases[i := p][1..] == phases[1..][i - 1 := p];
      TotalUpdate(phases[1..], i - 1, p);
    }
  }

  /** What is left to do, in steps. */
  function Remaining(b: Batch): int
  {
    Total(b.phases) +
    match b.caller
    case AtMessage(i) => 2 * (|b.messages| - i) + 2
    case Blocked(i) => 2 * (|b.messages| - i) + 1
    case Spawning(i) => 2 * (|b.messages| - i)
    case WaitingForAll => 1
    case Returned => 0
  }

  lemma {:induction false} TotalUnborn(phases: seq<Phase>)
    requires forall i :: 0 <= i < |phases| ==> phases[i] == Unborn
    ensures Total(phases) == 5 * |phases|
  {
    if phases != [] {
      TotalUnborn(phases[1..]);
    }
  }

  lemma CallerStepCostsOne(b: Batch, s: Step)
    requires Inv(b) && Enabled(b, s) && (s.Add? || s.Acquire? || s.EndLoop? || s.Return?)
    ensures Remaining(Next(b, s)) == Remaining(b) - 1
  {
  }

  lemma SpawnCostsOne(b: Batch, s: Step)
    requires Inv(b) && Enabled(b, s) && s.Spawn?
    ensures Remaining(Next(b, s)) == Remaining(b) - 1
  {
    TotalUpdate(b.phases, b.caller.i, Started);
  }

  /** A goroutine moves to its next phase. */
  lemma GoroutineStepCostsOne(b: Batch, s: Step)
    requires Inv(b) && Enabled(b, s) && (s.Begin? || s.End? || s.Release? || s.Done?)
    ensures Remaining(Next(b, s)) == Remaining(b) - 1
  {
    var b' := Next(b, s);
    assert b'.caller == b.caller && b'.messages == b.messages;
    TotalUpdate(b.phases, s.i, b'.phases[s.i]);
    assert b'.phases == b.phases[s.i := b'.phases[s.i]];
  }

  lemma StepCostsOne(b: Batch, s: Step)
    requires Inv(b) && Enabled(b, s)
    ensures Remaining(Next(b, s)) == Remaining(b) - 1
  {
    match s {
      case Spawn => SpawnCostsOne(b, s);
      case Begin(_) => GoroutineStepCostsOne(b, s);
      case End(_) => GoroutineStepCostsOne(b, s);
      case Release(_) => GoroutineStepCostsOne(b, s);
      case Done(_) => GoroutineStepCostsOne(b, s);
      case _ => CallerStepCostsOne(b, s);
    }
  }

  lemma StartCost(messages: seq<Message>)
    requires messages != []
    ensures Remaining(Start(messages)) == 7 * |messages| + 2
  {
    TotalUnborn(Start(messages).phases);
  }

  lemma RemainingIsNatural(b: Batch)
    requires Inv(b)
    ensures Remaining(b) >= 0
  {
  }

  /** Every step brings the end one step closer, so with the absence of deadlock every interleaving
      returns, after exactly seven steps for each message and two more of the caller. */
  lemma {:induction false} EveryRunIsFinite(messages: seq<Message>, bs: seq<Batch>, ss: seq<Step>, n: nat)
    requires messages != [] && Run(messages, bs, ss) && n < |bs|
    ensures n == 7 * |messages| + 2 - Remaining(bs[n]) && Remaining(bs[n]) >= 0
  {
    RunsKeepInv(messages, bs, ss, n);
    RemainingIsNatural(bs[n]);
    if n > 0 {
      EveryRunIsFinite(messages, bs, ss, n - 1);
      RunsKeepInv(messages, bs, ss, n - 1);
      StepCostsOne(bs[n - 1], ss[n - 1]);
    } else {
      StartCost(messages);
    }
  }
}
