/** The setups of a job and the quantities recalculated from them (frontend/src/Classes/job.js). */
module JobSetups {
  import opened Seqs

  /** The type ids of materials are written as text: they are keys of an object. */
  datatype Setup = Setup(id: string, runCount: int, jobCount: int, materialCount: map<string, int>)
  datatype Material = Material(typeID: string, quantity: int)

  /** `setups` lists the setup object's entries in the order of their keys. */
  datatype Plan = Plan(
    perRun: int, setups: seq<Setup>, setupToEdit: Option<string>, totalQuantity: int, materials: seq<Material>)

  // ----- From scratch -----

  function Produced(perRun: int, setups: seq<Setup>): int
  {
    if setups == [] then 0 else perRun * setups[0].runCount * setups[0].jobCount + Produced(perRun, setups[1..])
  }

  function Runs(setups: seq<Setup>): int
  {
    if setups == [] then 0 else setups[0].runCount * setups[0].jobCount + Runs(setups[1..])
  }

  function QuantityIn(s: Setup, typeID: string): int
  {
    if typeID in s.materialCount then s.materialCount[typeID] else 0
  }

  /** What the setups need of a material, together. */
  function Needed(setups: seq<Setup>, typeID: string): int
  {
    if setups == [] then 0 else QuantityIn(setups[0], typeID) + Needed(setups[1..], typeID)
  }

  predicate Covers(setups: seq<Setup>, typeID: string)
  {
    exists i :: 0 <= i < |setups| && typeID in setups[i].materialCount
  }

  lemma {:induction false} NeededAppend(a: seq<Setup>, b: seq<Setup>, typeID: string)
    ensures Needed(a + b, typeID) == Needed(a, typeID) + Needed(b, typeID)
  {
    if a == [] {
      assert a + b == b;
    } else {
      assert (a + b)[1..] == a[1..] + b;
      NeededAppend(a[1..], b, typeID);
    }
  }

  lemma {:induction false} ProducedAppend(perRun: int, a: seq<Setup>, b: seq<Setup>)
    ensures Produced(perRun, a + b) == Produced(perRun, a) + Produced(perRun, b)
  {
    if a == [] {
      assert a + b == b;
    } else {
      assert (a + b)[1..] == a[1..] + b;
      ProducedAppend(perRun, a[1..], b);
    }
  }

  /** The items produced are the runs times the items of one run. */
  lemma {:induction false} ProducedIsRunsTimes(perRun: int, setups: seq<Setup>)
    ensures Produced(perRun, setups) == perRun * Runs(setups)
  {
    if setups != [] {
      ProducedIsRunsTimes(perRun, setups[1..]);
      var a, b := setups[0].runCount * setups[0].jobCount, Runs(setups[1..]);
      assert perRun * setups[0].runCount * setups[0].jobCount == perRun * a;
      assert perRun * (a + b) == perRun * a + perRun * b;
    }
  }

  lemma {:induction false} UncoveredNeedsNothing(setups: seq<Setup>, typeID: string)
    requires !Covers(setups, typeID)
    ensures Needed(setups, typeID) == 0
  {
    if setups != [] {
      assert typeID !in setups[0].materialCount;
      assert forall i :: 0 <= i < |setups[1..]| ==> setups[1..][i] == setups[i + 1];
      UncoveredNeedsNothing(setups[1..], typeID);
    }
  }

  // ----- The operations on values -----

  function IndexOfSetup(setups: seq<Setup>, id: string): (i: nat)
    ensures i <= |setups| && (i < |setups| ==> setups[i].id == id)
    ensures forall j :: 0 <= j < i ==> setups[j].id != id
  {
    if setups == [] || setups[0].id == id then 0 else 1 + IndexOfSetup(setups[1..], id)
  }

  /** No setup before this one has its id. */
  ghost predicate IsFirst(setups: seq<Setup>, i: int)
  {
    0 <= i < |setups| && forall j :: 0 <= j < i ==> setups[j].id != setups[i].id
  }

  function Requantified(setups: seq<Setup>, ms: seq<Material>): (r: seq<Material>)
    ensures |r| == |ms|
    ensures forall i :: 0 <= i < |ms| ==>
      r[i] == if Covers(setups, ms[i].typeID) then ms[i].(quantity := Needed(setups, ms[i].typeID)) else ms[i]
  {
    seq(|ms|, i requires 0 <= i < |ms| =>
      if Covers(setups, ms[i].typeID) then ms[i].(quantity := Needed(setups, ms[i].typeID)) else ms[i])
  }

  function Recalculated(p: Plan): Plan
  {
    p.(totalQuantity := Produced(p.perRun, p.setups), materials := Requantified(p.setups, p.materials))
  }

  /** The quantities once the materials in `done` of one setup are added. */
  function AddedUp(quantities: map<string, int>, counts: map<string, int>, done: set<string>): map<string, int>
    requires done <= counts.Keys
  {
    map id | id in quantities.Keys + done
      :: (if id in quantities then quantities[id] else 0) + if id in done then counts[id] else 0
  }

  lemma AddedNothing(quantities: map<string, int>, counts: map<string, int>)
    ensures AddedUp(quantities, counts, {}) == quantities
  {
  }

  lemma AddedOne(quantities: map<string, int>, counts: map<string, int>, done: set<string>, id: string)
    requires done <= counts.Keys && id in counts && id !in done
    ensures var sums := AddedUp(quantities, counts, done);
      AddedUp(quantities, counts, done + {id}) == sums[id := (if id in sums then sums[id] else 0) + counts[id]]
  {
  }

  /** Assigning a key of an object: in place when it is there, otherwise last. */
  function Put(setups: seq<Setup>, s: Setup): seq<Setup>
  {
    var i := IndexOfSetup(setups, s.id);
    if i < |setups| then setups[i := s] else setups + [s]
  }

  function Attached(p: Plan, s: Setup): Plan
  {
    Recalculated(p.(setups := Put(p.setups, s), setupToEdit := Some(s.id)))
  }

  function Deleted(setups: seq<Setup>, id: Option<string>): seq<Setup>
  {
    if id == None then setups
    else
      var i := IndexOfSetup(setups, id.value);
      if i < |setups| then setups[..i] + setups[i + 1..] else setups
  }

  lemma DeletedMeaning(setups: seq<Setup>, id: Option<string>, i: nat)
    requires IsFirst(setups, i) && id == Some(setups[i].id)
    ensures Deleted(setups, id) == setups[..i] + setups[i + 1..]
  {
    assert IndexOfSetup(setups, setups[i].id) == i;
  }

  function LastId(setups: seq<Setup>): Option<string>
  {
    if setups == [] then None else Some(setups[|setups| - 1].id)
  }

  function ActiveDeleted(p: Plan): Plan
  {
    if |p.setups| == 1 then p
    else
      var setups := Deleted(p.setups, p.setupToEdit);
      Recalculated(p.(setups := setups, setupToEdit := LastId(setups)))
  }

  /** `s` is what recalculating the setup with its id has made of it. */
  function SelectedRecalculated(p: Plan, s: Setup): Plan
  {
    var i := IndexOfSetup(p.setups, s.id);
    if s.id == "" || i == |p.setups| then p else Recalculated(p.(setups := p.setups[i := s]))
  }

  // ----- The job -----

  class Job {
    const itemsProducedPerRun: int
    var setups: seq<Setup>
    var setupToEdit: Option<string>
    var totalQuantity: int
    var materials: seq<Material>

    constructor (perRun: int, setups: seq<Setup>, setupToEdit: Option<string>, materials: seq<Material>)
      ensures View() == Plan(perRun, setups, setupToEdit, 0, materials)
    {
      itemsProducedPerRun := perRun;
      this.setups, this.setupToEdit, this.materials, totalQuantity := setups, setupToEdit, materials, 0;
    }

    function View(): Plan
      reads this
    {
      Plan(itemsProducedPerRun, setups, setupToEdit, totalQuantity, materials)
    }

    method RecalculateTotalQuantityProduced()
      modifies `totalQuantity
      ensures totalQuantity == Produced(itemsProducedPerRun, setups)
    {
      var sum := 0;
      for i := 0 to |setups|
        invariant sum == Produced(itemsProducedPerRun, setups[..i])
      {
        assert setups[..i + 1] == setups[..i] + [setups[i]];
        ProducedAppend(itemsProducedPerRun, setups[..i], [setups[i]]);
        assert [setups[i]][1..] == [];
        sum := sum + itemsProducedPerRun * setups[i].runCount * setups[i].jobCount;
      }
      assert setups[..|setups|] == setups;
      totalQuantity := sum;
    }

    /** One setup's part of the quantities. The loop meets its materials in an order that is not fixed. */
    method AddQuantities(quantities: map<string, int>, s: Setup) returns (sums: map<string, int>)
      ensures sums == AddedUp(quantities, s.materialCount, s.materialCount.Keys)
    {
      sums := quantities;
      var left := s.materialCount.Keys;
      AddedNothing(quantities, s.materialCount);
      while left != {}
        invariant left <= s.materialCount.Keys
        invariant sums == AddedUp(quantities, s.materialCount, s.materialCount.Keys - left)
        decreases left
      {
        var id :| id in left;
        AddedOne(quantities, s.materialCount, s.materialCount.Keys - left, id);
        assert s.materialCount.Keys - (left - {id}) == s.materialCount.Keys - left + {id};
        left := left - {id};
        sums := sums[id := (if id in sums then sums[id] else 0) + s.materialCount[id]];
      }
      assert s.materialCount.Keys - left == s.materialCount.Keys;
    }

    method RecalculateTotalMaterialQuantities()
      modifies `materials
      ensures materials == Requantified(setups, old(materials))
    {
      var quantities: map<string, int> := map[];
      for i := 0 to |setups|
        invariant materials == old(materials)
        invariant forall id :: id in quantities <==> Covers(setups[..i], id)
        invariant forall id :: id in quantities ==> quantities[id] == Needed(setups[..i], id)
      {
        ghost var before := quantities;
        quantities := AddQuantities(quantities, setups[i]);
        assert setups[..i + 1] == setups[..i] + [setups[i]];
        forall id
          ensures id in quantities <==> Covers(setups[..i + 1], id)
          ensures id in quantities ==> quantities[id] == Needed(setups[..i + 1], id)
        {
          CoversAppend(setups[..i], setups[i], id);
          NeededOne(setups[..i], setups[i], id);
          if id !in before {
            UncoveredNeedsNothing(setups[..i], id);
          }
        }
      }
      assert setups[..|setups|] == setups;
      for i := 0 to |materials|
        invariant |materials| == |old(materials)|
        invariant forall j :: 0 <= j < i ==> materials[j] == Requantified(setups, old(materials))[j]
        invariant forall j :: i <= j < |materials| ==> materials[j] == old(materials)[j]
      {
        if materials[i].typeID in quantities {
          materials := materials[i := materials[i].(quantity := quantities[materials[i].typeID])];
        }
      }
    }

    method AttachNewSetupToJob(s: Setup)
      modifies this
      ensures View() == Attached(old(View()), s)
      ensures setupToEdit == Some(s.id)
      ensures forall i | IsFirst(old(setups), i) && old(setups)[i].id == s.id :: setups == old(setups)[i := s]
      ensures (forall i :: 0 <= i < |old(setups)| ==> old(setups)[i].id != s.id) ==> setups == old(setups) + [s]
    {
      var i := IndexOfSetup(setups, s.id);
      setups := if i < |setups| then setups[i := s] else setups + [s];
      setupToEdit := Some(s.id);
      RecalculateTotalQuantityProduced();
      RecalculateTotalMaterialQuantities();
    }

    method RemoveActive()
      modifies `setups
      ensures setups == Deleted(old(setups), setupToEdit)
    {
      if setupToEdit != None {
        var i := IndexOfSetup(setups, setupToEdit.value);
        if i < |setups| {
          setups := setups[..i] + setups[i + 1..];
        }
      }
    }

    method DeleteActiveSetup() returns (deleted: bool)
      modifies this
      ensures deleted == (|old(setups)| != 1)
      ensures View() == ActiveDeleted(old(View()))
      ensures deleted ==> setupToEdit == if setups == [] then None else Some(setups[|setups| - 1].id)
      ensures forall i | deleted && IsFirst(old(setups), i) && old(setupToEdit) == Some(old(setups)[i].id) ::
        setups == old(setups)[..i] + old(setups)[i + 1..]
    {
      if |setups| == 1 {
        return false;
      }
      RemoveActive();
      setupToEdit := if setups == [] then None else Some(setups[|setups| - 1].id);
      forall i | IsFirst(old(setups), i) && old(setupToEdit) == Some(old(setups)[i].id)
        ensures setups == old(setups)[..i] + old(setups)[i + 1..]
      {
        DeletedMeaning(old(setups), old(setupToEdit), i);
      }
      RecalculateTotalQuantityProduced();
      RecalculateTotalMaterialQuantities();
      return true;
    }

    method RecalculateSelectedSetup(recalculated: Setup)
      modifies this
      ensures View() == SelectedRecalculated(old(View()), recalculated)
      ensures recalculated.id == "" || (forall i :: 0 <= i < |old(setups)| ==> old(setups)[i].id != recalculated.id) ==>
        View() == old(View())
      ensures forall i | recalculated.id != "" && IsFirst(old(setups), i) && old(setups)[i].id == recalculated.id ::
        setups == old(setups)[i := recalculated] && setupToEdit == old(setupToEdit)
    {
      var i := IndexOfSetup(setups, recalculated.id);
      if recalculated.id == "" || i == |setups| {
        return;
      }
      setups := setups[i := recalculated];
      RecalculateTotalQuantityProduced();
      RecalculateTotalMaterialQuantities();
    }
  }

  lemma CoversAppend(setups: seq<Setup>, s: Setup, id: string)
    ensures Covers(setups + [s], id) <==> Covers(setups, id) || id in s.materialCount
  {
    var all := setups + [s];
    assert all[|setups|] == s;
    if Covers(setups, id) {
      var i :| 0 <= i < |setups| && id in setups[i].materialCount;
      assert all[i] == setups[i];
    }
  }

  lemma NeededOne(setups: seq<Setup>, s: Setup, id: string)
    ensures Needed(setups + [s], id) == Needed(setups, id) + QuantityIn(s, id)
  {
    NeededAppend(setups, [s], id);
    assert [s][1..] == [];
  }

  // ----- Runs -----

  datatype Op = Attach(s: Setup) | DeleteActive | Recalculate(s: Setup)

  function Apply(p: Plan, op: Op): Plan
  {
    match op
    case Attach(s) => Attached(p, s)
    case DeleteActive => ActiveDeleted(p)
    case Recalculate(s) => SelectedRecalculated(p, s)
  }

  ghost predicate Full(s: Setup, ms: seq<Material>)
  {
    forall i :: 0 <= i < |ms| ==> ms[i].typeID in s.materialCount
  }

  /** There is a setup, the active one is among them, and the quantities are those from scratch. */
  ghost predicate Consistent(p: Plan)
  {
    && p.setups != [] && (exists i :: 0 <= i < |p.setups| && p.setupToEdit == Some(p.setups[i].id))
    && (forall i :: 0 <= i < |p.setups| ==> Full(p.setups[i], p.materials))
    && p.totalQuantity == p.perRun * Runs(p.setups)
    && forall i :: 0 <= i < |p.materials| ==> p.materials[i].quantity == Needed(p.setups, p.materials[i].typeID)
  }

  /** After a recalculation a material has the quantity that the setups need of it exactly when a
      setup covers it, or it had none before. */
  lemma RecalculationIsRightExactly(p: Plan, i: nat)
    requires i < |p.materials|
    ensures Recalculated(p).materials[i].quantity == Needed(p.setups, p.materials[i].typeID)
         <==> Covers(p.setups, p.materials[i].typeID) || p.materials[i].quantity == 0
  {
    if !Covers(p.setups, p.materials[i].typeID) {
      UncoveredNeedsNothing(p.setups, p.materials[i].typeID);
    }
  }

  lemma RecalculationIsConsistent(p: Plan)
    requires p.setups != [] && (exists i :: 0 <= i < |p.setups| && p.setupToEdit == Some(p.setups[i].id))
    requires forall i :: 0 <= i < |p.setups| ==> Full(p.setups[i], p.materials)
    ensures Consistent(Recalculated(p))
  {
    ProducedIsRunsTimes(p.perRun, p.setups);
    var r := Recalculated(p);
    forall i | 0 <= i < |p.materials|
      ensures r.materials[i].typeID == p.materials[i].typeID
      ensures r.materials[i].quantity == Needed(p.setups, p.materials[i].typeID)
    {
      assert Full(p.setups[0], p.materials);
      assert Covers(p.setups, p.materials[i].typeID);
    }
    forall k | 0 <= k < |p.setups|
      ensures Full(r.setups[k], r.materials)
    {
      assert Full(p.setups[k], p.materials);
    }
  }

  lemma AttachKeepsConsistent(p: Plan, s: Setup)
    requires Consistent(p) && Full(s, p.materials)
    ensures Consistent(Attached(p, s))
  {
    var setups := Put(p.setups, s);
    assert setups[IndexOfSetup(p.setups, s.id)] == s;
    RecalculationIsConsistent(p.(setups := setups, setupToEdit := Some(s.id)));
  }

  lemma DeleteKeepsConsistent(p: Plan)
    requires Consistent(p)
    ensures Consistent(ActiveDeleted(p))
  {
    if |p.setups| > 1 {
      var setups := Deleted(p.setups, p.setupToEdit);
      RecalculationIsConsistent(p.(setups := setups, setupToEdit := LastId(setups)));
    }
  }

  lemma RecalculateKeepsConsistent(p: Plan, s: Setup)
    requires Consistent(p) && Full(s, p.materials)
    ensures Consistent(SelectedRecalculated(p, s))
  {
    var i := IndexOfSetup(p.setups, s.id);
    if s.id != "" && i < |p.setups| {
      var k :| 0 <= k < |p.setups| && p.setupToEdit == Some(p.setups[k].id);
      var setups := p.setups[i := s];
      assert p.setupToEdit == Some(setups[k].id);
      RecalculationIsConsistent(p.(setups := setups));
    }
  }

  lemma StepKeepsConsistent(p: Plan, op: Op)
    requires Consistent(p) && (op.DeleteActive? || Full(op.s, p.materials))
    ensures Consistent(Apply(p, op))
  {
    match op {
      case Attach(s) => AttachKeepsConsistent(p, s);
      case DeleteActive => DeleteKeepsConsistent(p);
      case Recalculate(s) => RecalculateKeepsConsistent(p, s);
    }
  }

  lemma RunsAppend(a: seq<Setup>, s: Setup)
    ensures Runs(a + [s]) == Runs(a) + s.runCount * s.jobCount
  {
    ProducedIsRunsTimes(1, a + [s]);
    ProducedIsRunsTimes(1, a);
    ProducedAppend(1, a, [s]);
    assert [s][1..] == [];
  }

  /** A new setup adds its own runs to the items produced, and what it needs to every material. */
  lemma AttachAdds(p: Plan, s: Setup, i: nat)
    requires Consistent(p) && Full(s, p.materials) && i < |p.materials|
    requires forall k :: 0 <= k < |p.setups| ==> p.setups[k].id != s.id
    ensures Attached(p, s).setups == p.setups + [s]
    ensures Attached(p, s).totalQuantity == p.totalQuantity + p.perRun * (s.runCount * s.jobCount)
    ensures Attached(p, s).materials[i]
         == p.materials[i].(quantity := p.materials[i].quantity + s.materialCount[p.materials[i].typeID])
  {
    AttachKeepsConsistent(p, s);
    RunsAppend(p.setups, s);
    NeededOne(p.setups, s, p.materials[i].typeID);
    ApplyKeepsTypes(p, Attach(s));
    assert p.perRun * (Runs(p.setups) + s.runCount * s.jobCount)
        == p.perRun * Runs(p.setups) + p.perRun * (s.runCount * s.jobCount);
    assert Attached(p, s).materials[i] == p.materials[i].(quantity := Attached(p, s).materials[i].quantity);
  }

  lemma RecalculatedIsSame(p: Plan)
    requires Consistent(p)
    ensures Recalculated(p) == p
  {
    ProducedIsRunsTimes(p.perRun, p.setups);
    var ms := Requantified(p.setups, p.materials);
    forall i | 0 <= i < |ms|
      ensures ms[i] == p.materials[i]
    {
      assert Full(p.setups[0], p.materials);
      assert Covers(p.setups, p.materials[i].typeID);
    }
    assert ms == p.materials;
  }

  /** Deleting a setup that has just been attached undoes it, but the last of the others is active then. */
  lemma DeleteUndoesAttach(p: Plan, s: Setup)
    requires Consistent(p) && Full(s, p.materials)
    requires forall k :: 0 <= k < |p.setups| ==> p.setups[k].id != s.id
    ensures ActiveDeleted(Attached(p, s)) == p.(setupToEdit := Some(p.setups[|p.setups| - 1].id))
  {
    var q, n := Attached(p, s), |p.setups|;
    assert IndexOfSetup(p.setups, s.id) == n;
    assert q.setups == p.setups + [s];
    AttachedIsFound(p.setups, s);
    assert (p.setups + [s])[..n] + (p.setups + [s])[n + 1..] == p.setups;
    var r := q.(setups := p.setups, setupToEdit := Some(p.setups[n - 1].id));
    assert ActiveDeleted(q) == Recalculated(r);
    var r' := p.(setupToEdit := Some(p.setups[n - 1].id));
    RecalculatedIsSame(r');
    assert Recalculated(r).totalQuantity == Recalculated(r').totalQuantity;
    assert Recalculated(r).materials == Recalculated(r').materials by {
      SameQuantities(p, s);
    }
  }

  lemma AttachedIsFound(setups: seq<Setup>, s: Setup)
    requires forall k :: 0 <= k < |setups| ==> setups[k].id != s.id
    ensures IndexOfSetup(setups + [s], s.id) == |setups|
  {
    var all := setups + [s];
    assert all[|setups|] == s;
    assert forall k :: 0 <= k < |setups| ==> all[k] == setups[k];
  }

  /** Recalculating the materials over covering setups makes no use of what they were before. */
  lemma SameQuantities(p: Plan, s: Setup)
    requires Consistent(p)
    ensures Requantified(p.setups, Attached(p, s).materials) == Requantified(p.setups, p.materials)
  {
    ApplyKeepsTypes(p, Attach(s));
    var a, b := Requantified(p.setups, Attached(p, s).materials), Requantified(p.setups, p.materials);
    forall i | 0 <= i < |b|
      ensures a[i] == b[i]
    {
      assert Full(p.setups[0], p.materials);
      assert Covers(p.setups, p.materials[i].typeID);
    }
  }

  lemma ApplyKeepsTypes(p: Plan, op: Op)
    ensures |Apply(p, op).materials| == |p.materials|
    ensures forall i :: 0 <= i < |p.materials| ==> Apply(p, op).materials[i].typeID == p.materials[i].typeID
  {
  }

  /** Over every run of attaching, replacing, recalculating and deleting setups that cover the
      materials of the job: the product and material quantities are those computed from scratch, a
      setup remains, and the active one exists. */
  lemma {:induction false} RunsStayConsistent(ps: seq<Plan>, ops: seq<Op>, n: nat)
    requires |ps| == |ops| + 1 && n < |ps| && Consistent(ps[0])
    requires forall i :: 0 <= i < |ops| ==> ps[i + 1] == Apply(ps[i], ops[i])
    requires forall i :: 0 <= i < |ops| ==> ops[i].DeleteActive? || Full(ops[i].s, ps[0].materials)
    ensures Consistent(ps[n])
    ensures |ps[n].materials| == |ps[0].materials|
    ensures forall i :: 0 <= i < |ps[n].materials| ==> ps[n].materials[i].typeID == ps[0].materials[i].typeID
  {
    if n > 0 {
      RunsStayConsistent(ps, ops, n - 1);
      StepKeepsConsistent(ps[n - 1], ops[n - 1]);
      ApplyKeepsTypes(ps[n - 1], ops[n - 1]);
    }
  }
}
