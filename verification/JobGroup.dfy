/** A group of jobs and the id sets it keeps about them (frontend/src/Classes/group.js). */
module JobGroup {
  import opened Seqs

  /** What a group reads of a job. */
  datatype Job = Job(
    jobID: string, groupID: string, itemID: int, parentJobs: seq<string>, materials: seq<int>,
    apiJobs: set<int>, apiOrders: set<int>, apiTransactions: set<int>)

  datatype Data = Data(
    outputJobCount: nat, materialIDs: set<int>, includedTypeIDs: set<int>, includedJobIDs: set<string>,
    linkedJobIDs: set<int>, linkedOrderIDs: set<int>, linkedTransIDs: set<int>)

  const EMPTY := Data(0, {}, {}, {}, {}, {}, {})

  // ----- From scratch -----

  function OfJob(job: Job): Data
  {
    Data(if job.parentJobs == [] then 1 else 0, {job.itemID} + (set m | m in job.materials), {job.itemID}, {job.jobID},
         job.apiJobs, job.apiOrders, job.apiTransactions)
  }

  function Merge(a: Data, b: Data): Data
  {
    Data(a.outputJobCount + b.outputJobCount, a.materialIDs + b.materialIDs, a.includedTypeIDs + b.includedTypeIDs,
         a.includedJobIDs + b.includedJobIDs, a.linkedJobIDs + b.linkedJobIDs, a.linkedOrderIDs + b.linkedOrderIDs,
         a.linkedTransIDs + b.linkedTransIDs)
  }

  /** The data of a list of jobs, built from nothing. */
  function Build(jobs: seq<Job>): Data
  {
    if jobs == [] then EMPTY else Merge(OfJob(jobs[0]), Build(jobs[1..]))
  }

  lemma {:induction false} BuildAppend(a: seq<Job>, b: seq<Job>)
    ensures Build(a + b) == Merge(Build(a), Build(b))
  {
    if a == [] {
      assert a + b == b;
      MergeEmpty(Build(b));
    } else {
      assert (a + b)[0] == a[0] && (a + b)[1..] == a[1..] + b;
      BuildAppend(a[1..], b);
      MergeAssociates(OfJob(a[0]), Build(a[1..]), Build(b));
    }
  }

  lemma MergeEmpty(d: Data)
    ensures Merge(EMPTY, d) == d && Merge(d, EMPTY) == d
  {
  }

  lemma BuildOne(job: Job)
    ensures Build([job]) == OfJob(job)
  {
    assert [job][1..] == [];
    MergeEmpty(OfJob(job));
  }

  lemma BuildLast(jobs: seq<Job>, job: Job)
    ensures Build(jobs + [job]) == Merge(Build(jobs), OfJob(job))
  {
    BuildAppend(jobs, [job]);
    BuildOne(job);
  }

  lemma MergeAssociates(a: Data, b: Data, c: Data)
    ensures Merge(Merge(a, b), c) == Merge(a, Merge(b, c))
  {
  }

  lemma MergeSwaps(a: Data, x: Data, b: Data)
    ensures Merge(Merge(a, x), b) == Merge(x, Merge(a, b))
  {
  }

  lemma BuildMiddle(before: seq<Job>, job: Job, after: seq<Job>)
    ensures Build(before + [job] + after) == Merge(OfJob(job), Build(before + after))
  {
    BuildAppend(before, after);
    BuildAppend(before + [job], after);
    BuildAppend(before, [job]);
    BuildOne(job);
    MergeSwaps(Build(before), OfJob(job), Build(after));
  }

  lemma FindFirst(a: seq<Job>, b: seq<Job>) returns (i: nat)
    requires multiset(a) == multiset(b) && a != []
    ensures i < |b| && b[i] == a[0] && b == b[..i] + [b[i]] + b[i + 1..]
    ensures multiset(a[1..]) == multiset(b[..i] + b[i + 1..])
  {
    assert a[0] in multiset(b);
    i :| 0 <= i < |b| && b[i] == a[0];
    assert a == [a[0]] + a[1..] && b == b[..i] + [b[i]] + b[i + 1..];
    assert multiset(a[1..]) == multiset(a) - multiset{a[0]};
  }

  /** The order of the jobs makes no difference. */
  lemma {:induction false} BuildIgnoresOrder(a: seq<Job>, b: seq<Job>)
    requires multiset(a) == multiset(b)
    ensures Build(a) == Build(b)
    decreases |a|
  {
    if a == [] {
      assert |multiset(b)| == 0;
    } else {
      var i := FindFirst(a, b);
      BuildIgnoresOrder(a[1..], b[..i] + b[i + 1..]);
      BuildMiddle(b[..i], b[i], b[i + 1..]);
    }
  }

  // ----- What the data are -----

  /** The ids that a list of jobs has, each kind collected at once. */
  lemma {:induction false} OwnIdsMeaning(jobs: seq<Job>)
    ensures Build(jobs).includedTypeIDs == (set j | j in jobs :: j.itemID)
    ensures Build(jobs).includedJobIDs == (set j | j in jobs :: j.jobID)
  {
    if jobs != [] {
      OwnIdsMeaning(jobs[1..]);
      assert forall j :: j in jobs <==> j == jobs[0] || j in jobs[1..];
    }
  }

  lemma {:induction false} MaterialIdsMeaning(jobs: seq<Job>, id: int)
    ensures id in Build(jobs).materialIDs <==> exists j :: j in jobs && (j.itemID == id || id in j.materials)
  {
    if jobs != [] {
      MaterialIdsMeaning(jobs[1..], id);
      assert forall j :: j in jobs <==> j == jobs[0] || j in jobs[1..];
    }
  }

  lemma {:induction false} LinkedJobsMeaning(jobs: seq<Job>, id: int)
    ensures id in Build(jobs).linkedJobIDs <==> exists j :: j in jobs && id in j.apiJobs
  {
    if jobs != [] {
      LinkedJobsMeaning(jobs[1..], id);
      assert forall j :: j in jobs <==> j == jobs[0] || j in jobs[1..];
    }
  }

  lemma {:induction false} LinkedOrdersMeaning(jobs: seq<Job>, id: int)
    ensures id in Build(jobs).linkedOrderIDs <==> exists j :: j in jobs && id in j.apiOrders
  {
    if jobs != [] {
      LinkedOrdersMeaning(jobs[1..], id);
      assert forall j :: j in jobs <==> j == jobs[0] || j in jobs[1..];
    }
  }

  lemma {:induction false} LinkedTransMeaning(jobs: seq<Job>, id: int)
    ensures id in Build(jobs).linkedTransIDs <==> exists j :: j in jobs && id in j.apiTransactions
  {
    if jobs != [] {
      LinkedTransMeaning(jobs[1..], id);
      assert forall j :: j in jobs <==> j == jobs[0] || j in jobs[1..];
    }
  }

  // ----- The output count -----

  function OutputIds(jobs: seq<Job>): set<string>
  {
    set j | j in jobs && j.parentJobs == [] :: j.jobID
  }

  ghost predicate OutputsOnce(jobs: seq<Job>)
  {
    forall i, j :: 0 <= i < j < |jobs| && jobs[i].parentJobs == [] && jobs[j].parentJobs == [] ==>
      jobs[i].jobID != jobs[j].jobID
  }

  lemma OutputIdsSplit(jobs: seq<Job>)
    requires jobs != []
    ensures OutputIds(jobs) == OutputIds(jobs[1..]) + if jobs[0].parentJobs == [] then {jobs[0].jobID} else {}
  {
    assert forall j :: j in jobs <==> j == jobs[0] || j in jobs[1..];
  }

  lemma OutputsOnceSplit(jobs: seq<Job>)
    requires jobs != []
    ensures OutputsOnce(jobs)
       <==> OutputsOnce(jobs[1..]) && (jobs[0].parentJobs == [] ==> jobs[0].jobID !in OutputIds(jobs[1..]))
  {
    var rest := jobs[1..];
    assert forall i :: 0 <= i < |rest| ==> rest[i] == jobs[i + 1];
    if OutputsOnce(rest) && (jobs[0].parentJobs == [] ==> jobs[0].jobID !in OutputIds(rest)) {
      forall i, j | 0 <= i < j < |jobs| && jobs[i].parentJobs == [] && jobs[j].parentJobs == []
        ensures jobs[i].jobID != jobs[j].jobID
      {
        assert jobs[j] == rest[j - 1];
        if i > 0 {
          assert jobs[i] == rest[i - 1];
        }
      }
    }
  }

  /** The output count is that of distinct jobs exactly when no output job is listed twice; else it is more. */
  lemma {:induction false} CountIsRightExactly(jobs: seq<Job>)
    ensures Build(jobs).outputJobCount >= |OutputIds(jobs)|
    ensures Build(jobs).outputJobCount == |OutputIds(jobs)| <==> OutputsOnce(jobs)
  {
    if jobs != [] {
      CountIsRightExactly(jobs[1..]);
      OutputIdsSplit(jobs);
      OutputsOnceSplit(jobs);
    }
  }

  /** An addition to a group whose count is right keeps it right exactly when it names no output job
      twice and none that the group has. */
  lemma AdditionCountsExactly(jobs: seq<Job>, added: seq<Job>)
    requires Build(jobs).outputJobCount == |OutputIds(jobs)|
    ensures Merge(Build(jobs), Build(added)).outputJobCount == |OutputIds(jobs + added)|
       <==> OutputsOnce(added) && OutputIds(jobs) !! OutputIds(added)
  {
    var a, b := OutputIds(jobs), OutputIds(added);
    CountIsRightExactly(added);
    assert OutputIds(jobs + added) == a + b;
    assert |a + b| == |a| + |b| - |a * b|;
    assert |a * b| == 0 <==> a * b == {};
  }

  // ----- The group -----

  class Group {
    const groupID: string
    var outputJobCount: nat
    var materialIDs: set<int>
    var includedTypeIDs: set<int>
    var includedJobIDs: set<string>
    var linkedJobIDs: set<int>
    var linkedOrderIDs: set<int>
    var linkedTransIDs: set<int>

    constructor (groupID: string)
      ensures this.groupID == groupID && View() == EMPTY
    {
      this.groupID := groupID;
      outputJobCount, materialIDs, includedTypeIDs, includedJobIDs := 0, {}, {}, {};
      linkedJobIDs, linkedOrderIDs, linkedTransIDs := {}, {}, {};
    }

    function View(): Data
      reads this
    {
      Data(outputJobCount, materialIDs, includedTypeIDs, includedJobIDs, linkedJobIDs, linkedOrderIDs, linkedTransIDs)
    }

    /** The inner loop, over the materials of a job. */
    method MaterialsOf(job: Job) returns (ids: set<int>)
      ensures ids == set m | m in job.materials
    {
      ids := {};
      for k := 0 to |job.materials|
        invariant ids == set m | m in job.materials[..k]
      {
        assert job.materials[..k + 1] == job.materials[..k] + [job.materials[k]];
        ids := ids + {job.materials[k]};
      }
      assert job.materials[..|job.materials|] == job.materials;
    }

    method BuildNewGroupData(jobs: seq<Job>) returns (data: Data)
      ensures data == Build(jobs)
    {
      var count, materials, types, ids := 0, {}, {}, {};
      var linkedJobs, linkedOrders, linkedTrans := {}, {}, {};
      for i := 0 to |jobs|
        invariant Data(count, materials, types, ids, linkedJobs, linkedOrders, linkedTrans) == Build(jobs[..i])
      {
        var job := jobs[i];
        if |job.parentJobs| == 0 {
          count := count + 1;
        }
        materials := materials + {job.itemID};
        types := types + {job.itemID};
        ids := ids + {job.jobID};
        linkedJobs := linkedJobs + job.apiJobs;
        linkedOrders := linkedOrders + job.apiOrders;
        linkedTrans := linkedTrans + job.apiTransactions;
        var needed := MaterialsOf(job);
        materials := materials + needed;
        assert jobs[..i + 1] == jobs[..i] + [job];
        BuildLast(jobs[..i], job);
        assert (Build(jobs[..i]).materialIDs + {job.itemID}) + needed
            == Build(jobs[..i]).materialIDs + ({job.itemID} + needed);
      }
      assert jobs[..|jobs|] == jobs;
      data := Data(count, materials, types, ids, linkedJobs, linkedOrders, linkedTrans);
    }

    method SetAll(data: Data)
      modifies this
      ensures View() == data
    {
      outputJobCount := data.outputJobCount;
      materialIDs := data.materialIDs;
      includedJobIDs := data.includedJobIDs;
      includedTypeIDs := data.includedTypeIDs;
      linkedJobIDs := data.linkedJobIDs;
      linkedOrderIDs := data.linkedOrderIDs;
      linkedTransIDs := data.linkedTransIDs;
    }

    method UpdateGroupData(jobs: seq<Job>)
      modifies this
      ensures View() == Build(jobs)
    {
      var data := BuildNewGroupData(jobs);
      SetAll(data);
    }

    method AddJobsToGroup(jobs: seq<Job>)
      modifies this
      ensures View() == Merge(old(View()), Build(jobs))
    {
      var data := BuildNewGroupData(jobs);
      outputJobCount := outputJobCount + data.outputJobCount;
      materialIDs := materialIDs + data.materialIDs;
      includedJobIDs := includedJobIDs + data.includedJobIDs;
      includedTypeIDs := includedTypeIDs + data.includedTypeIDs;
      linkedJobIDs := linkedJobIDs + data.linkedJobIDs;
      linkedOrderIDs := linkedOrderIDs + data.linkedOrderIDs;
      linkedTransIDs := linkedTransIDs + data.linkedTransIDs;
    }

    method RemoveJobsFromGroup(jobsToRemove: seq<Job>, jobArray: seq<Job>)
      modifies this
      ensures View() == Build(Filter(jobArray, Remaining(groupID, IdsOf(jobsToRemove))))
      ensures includedJobIDs
           == (set j | j in jobArray && j.groupID == groupID :: j.jobID) - (set j | j in jobsToRemove :: j.jobID)
    {
      var idsOfJobsToRemove: set<string> := {};
      for i := 0 to |jobsToRemove|
        invariant idsOfJobsToRemove == IdsOf(jobsToRemove[..i])
      {
        assert jobsToRemove[..i + 1] == jobsToRemove[..i] + [jobsToRemove[i]];
        idsOfJobsToRemove := idsOfJobsToRemove + {jobsToRemove[i].jobID};
      }
      assert jobsToRemove[..|jobsToRemove|] == jobsToRemove;
      var remaining := Filter(jobArray, Remaining(groupID, idsOfJobsToRemove));
      var data := BuildNewGroupData(remaining);
      SetAll(data);
      OwnIdsMeaning(remaining);
    }
  }

  function IdsOf(jobs: seq<Job>): set<string>
  {
    set j | j in jobs :: j.jobID
  }

  function InGroup(groupID: string): Job -> bool
  {
    (j: Job) => j.groupID == groupID
  }

  function Kept(ids: set<string>): Job -> bool
  {
    (j: Job) => j.jobID !in ids
  }

  function Remaining(groupID: string, ids: set<string>): Job -> bool
  {
    (j: Job) => j.groupID == groupID && j.jobID !in ids
  }

  // ----- Runs -----

  datatype Op =
    | Update(jobs: seq<Job>)
    | Add(jobs: seq<Job>)
    | Remove(gone: seq<Job>, jobArray: seq<Job>)

  /** What the group holds after an operation. */
  function Apply(groupID: string, d: Data, op: Op): Data
  {
    match op
    case Update(jobs) => Build(jobs)
    case Add(jobs) => Merge(d, Build(jobs))
    case Remove(gone, jobArray) => Build(Filter(jobArray, Remaining(groupID, IdsOf(gone))))
  }

  /** The jobs of the group after an operation, with no group in sight. */
  function JobsAfter(jobs: seq<Job>, op: Op): seq<Job>
  {
    match op
    case Update(js) => js
    case Add(js) => jobs + js
    case Remove(gone, _) => Filter(jobs, Kept(IdsOf(gone)))
  }

  /** The job array that a removal gets has the jobs of the group, in whatever order and among others. */
  ghost predicate Complete(groupID: string, jobs: seq<Job>, op: Op)
  {
    op.Remove? ==> multiset(Filter(op.jobArray, InGroup(groupID))) == multiset(jobs)
  }

  lemma RemovalAgrees(groupID: string, jobs: seq<Job>, op: Op)
    requires op.Remove? && Complete(groupID, jobs, op)
    ensures Apply(groupID, Build(jobs), op) == Build(JobsAfter(jobs, op))
  {
    var ids := IdsOf(op.gone);
    var mine := Filter(op.jobArray, InGroup(groupID));
    FilterTwice(op.jobArray, InGroup(groupID), Kept(ids), Remaining(groupID, ids));
    forall x
      ensures multiset(Filter(mine, Kept(ids)))[x] == multiset(Filter(jobs, Kept(ids)))[x]
    {
      FilterCounts(mine, Kept(ids), x);
      FilterCounts(jobs, Kept(ids), x);
    }
    BuildIgnoresOrder(Filter(mine, Kept(ids)), Filter(jobs, Kept(ids)));
  }

  lemma StepMatchesScratch(groupID: string, jobs: seq<Job>, op: Op)
    requires Complete(groupID, jobs, op)
    ensures Apply(groupID, Build(jobs), op) == Build(JobsAfter(jobs, op))
  {
    match op {
      case Update(_) =>
      case Add(js) => BuildAppend(jobs, js);
      case Remove(_, _) => RemovalAgrees(groupID, jobs, op);
    }
  }

  /** Over every run of updates, additions and removals that are given all jobs of the group, the sets
      and the count of the group are those built from scratch over its jobs. */
  lemma {:induction false} RunsMatchScratch(groupID: string, ds: seq<Data>, jobs: seq<seq<Job>>, ops: seq<Op>, n: nat)
    requires |ds| == |jobs| == |ops| + 1 && n < |ds| && ds[0] == Build(jobs[0])
    requires forall i :: 0 <= i < |ops| ==> Complete(groupID, jobs[i], ops[i])
    requires forall i :: 0 <= i < |ops| ==>
      ds[i + 1] == Apply(groupID, ds[i], ops[i]) && jobs[i + 1] == JobsAfter(jobs[i], ops[i])
    ensures ds[n] == Build(jobs[n])
  {
    if n > 0 {
      RunsMatchScratch(groupID, ds, jobs, ops, n - 1);
      assert ds[n - 1] == Build(jobs[n - 1]);
      StepMatchesScratch(groupID, jobs[n - 1], ops[n - 1]);
      assert ds[n - 1 + 1] == Apply(groupID, ds[n - 1], ops[n - 1]);
    }
  }
}
