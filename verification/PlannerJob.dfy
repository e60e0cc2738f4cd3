/** The ledgers of a planner job: linked industry jobs, extras, inventions, purchases, market orders
    and transactions, with their cached totals and id sets (frontend/src/Classes/job.js). */
module PlannerJob {
  import opened Seqs
  import Ids = TransactionIds

  datatype LinkedJob = LinkedJob(jobID: int, cost: real)
  datatype Extra = Extra(id: string, category: string, value: real)
  datatype Invention = Invention(id: string, cost: real)
  datatype Purchase = Purchase(itemCost: real, itemCount: real, childJobImport: bool)
  datatype Material = Material(
    typeID: int, quantity: real, purchasing: seq<Purchase>, quantityPurchased: real, purchasedCost: real,
    purchaseComplete: bool)
  datatype Order = Order(orderID: int, location: int)
  datatype Transaction = Transaction(id: int, orderID: int, location: int, date: int)
  datatype RawTransaction = RawTransaction(id: Ids.Raw, location: int, date: int)

  /** `installCosts` may be NaN, which is `None`. */
  datatype Ledger = Ledger(
    linkedJobs: seq<LinkedJob>, installCosts: Option<real>, apiJobs: set<int>,
    extrasCosts: seq<Extra>, extrasTotal: real,
    inventionEntries: seq<Invention>, inventionCosts: real,
    materials: seq<Material>, totalPurchaseCost: real,
    marketOrders: seq<Order>, brokersFee: seq<int>, apiOrders: set<int>,
    transactions: seq<Transaction>, apiTransactions: set<int>)

  // ----- Sums and filters -----

  function Sum<T>(s: seq<T>, f: T -> real): real
  {
    if s == [] then 0.0 else f(s[0]) + Sum(s[1..], f)
  }

  lemma {:induction false} SumAppend<T>(a: seq<T>, b: seq<T>, f: T -> real)
    ensures Sum(a + b, f) == Sum(a, f) + Sum(b, f)
  {
    if a == [] {
      assert a + b == b;
    } else {
      assert (a + b)[1..] == a[1..] + b;
      SumAppend(a[1..], b, f);
    }
  }

  lemma SumOne<T>(s: seq<T>, x: T, f: T -> real)
    ensures Sum(s + [x], f) == Sum(s, f) + f(x)
  {
    SumAppend(s, [x], f);
    assert [x][1..] == [];
  }

  /** What is filtered out and what stays add up to the whole. */
  lemma {:induction false} SumSplits<T(!new)>(s: seq<T>, p: T -> bool, q: T -> bool, f: T -> real)
    requires forall x :: x in s ==> q(x) == !p(x)
    ensures Sum(s, f) == Sum(Filter(s, p), f) + Sum(Filter(s, q), f)
  {
    if s != [] {
      assert s == [s[0]] + s[1..];
      SumSplits(s[1..], p, q, f);
      SumAppend(if p(s[0]) then [s[0]] else [], Filter(s[1..], p), f);
      SumAppend(if q(s[0]) then [s[0]] else [], Filter(s[1..], q), f);
      assert Sum([s[0]], f) == f(s[0]) by { assert [s[0]][1..] == []; }
    }
  }

  const JOB_COST: LinkedJob -> real := (j: LinkedJob) => j.cost
  const EXTRA_VALUE: Extra -> real := (e: Extra) => e.value
  const INVENTION_COST: Invention -> real := (i: Invention) => i.cost
  const SPENT: Purchase -> real := (p: Purchase) => p.itemCost * p.itemCount
  const COUNT: Purchase -> real := (p: Purchase) => p.itemCount
  const RAW_SPENT: Purchase -> real := (p: Purchase) => if p.childJobImport then 0.0 else SPENT(p)
  const IMPORT_SPENT: Purchase -> real := (p: Purchase) => if p.childJobImport then SPENT(p) else 0.0
  const MATERIAL_RAW: Material -> real := (m: Material) => Sum(m.purchasing, RAW_SPENT)
  const MATERIAL_IMPORTED: Material -> real := (m: Material) => Sum(m.purchasing, IMPORT_SPENT)
  const MATERIAL_SPENT: Material -> real := (m: Material) => Sum(m.purchasing, SPENT)

  // ----- The tests that the filters use -----

  function SameJob(jobID: int): LinkedJob -> bool { (j: LinkedJob) => j.jobID == jobID }

  function OtherJob(jobID: int): LinkedJob -> bool { (j: LinkedJob) => j.jobID != jobID }

  function SameInvention(id: string): Invention -> bool { (i: Invention) => i.id == id }

  function OtherInvention(id: string): Invention -> bool { (i: Invention) => i.id != id }

  function OtherExtra(id: string): Extra -> bool { (e: Extra) => e.id != id }

  function OtherTransaction(id: int): Transaction -> bool { (t: Transaction) => t.id != id }

  function At(location: int): Transaction -> bool { (t: Transaction) => t.location == location }

  function NotAt(location: int): Transaction -> bool { (t: Transaction) => t.location != location }

  function OtherOrder(orderID: int): Order -> bool { (o: Order) => o.orderID != orderID }

  function OtherFee(orderID: int): int -> bool { (fee: int) => fee != orderID }

  // ----- The operations on values -----

  /** `installCosts`, recomputed first when it is NaN or negative. */
  function Repaired(l: Ledger): real
  {
    if l.installCosts == None || l.installCosts.value < 0.0 then Sum(l.linkedJobs, JOB_COST) else l.installCosts.value
  }

  function Linked(l: Ledger, j: LinkedJob): Ledger
  {
    l.(installCosts := Some(Repaired(l) + j.cost), apiJobs := l.apiJobs + {j.jobID}, linkedJobs := l.linkedJobs + [j])
  }

  function Unlinked(l: Ledger, j: LinkedJob): Ledger
  {
    l.(installCosts := Some(Repaired(l) - j.cost), apiJobs := l.apiJobs - {j.jobID},
       linkedJobs := Filter(l.linkedJobs, OtherJob(j.jobID)))
  }

  function CategoryOf(category: Option<string>): string
  {
    if category == None || category.value == "" then "0" else category.value
  }

  function ExtraAdded(l: Ledger, id: string, category: Option<string>, value: real): Ledger
  {
    var extras := l.extrasCosts + [Extra(id, CategoryOf(category), value)];
    l.(extrasCosts := extras, extrasTotal := Sum(extras, EXTRA_VALUE))
  }

  function ExtraRemoved(l: Ledger, id: string): Ledger
  {
    var extras := Filter(l.extrasCosts, OtherExtra(id));
    l.(extrasCosts := extras, extrasTotal := Sum(extras, EXTRA_VALUE))
  }

  function InventionAdded(l: Ledger, i: Invention): Ledger
  {
    l.(inventionEntries := l.inventionEntries + [i], inventionCosts := l.inventionCosts + i.cost,
       totalPurchaseCost := l.totalPurchaseCost + i.cost)
  }

  function InventionRemoved(l: Ledger, i: Invention): Ledger
  {
    l.(inventionEntries := Filter(l.inventionEntries, OtherInvention(i.id)),
       inventionCosts := l.inventionCosts - i.cost, totalPurchaseCost := l.totalPurchaseCost - i.cost)
  }

  /** The first material of a type, or the length of the list. */
  function IndexOfMaterial(ms: seq<Material>, typeID: int): (i: nat)
    ensures i <= |ms| && (i < |ms| ==> ms[i].typeID == typeID)
    ensures forall j :: 0 <= j < i ==> ms[j].typeID != typeID
  {
    if ms == [] || ms[0].typeID == typeID then 0 else 1 + IndexOfMaterial(ms[1..], typeID)
  }

  ghost predicate IsFirst(ms: seq<Material>, i: int, typeID: int)
  {
    0 <= i < |ms| && ms[i].typeID == typeID && forall j :: 0 <= j < i ==> ms[j].typeID != typeID
  }

  function Bought(m: Material, p: Purchase): Material
  {
    var bought := m.quantityPurchased + p.itemCount;
    m.(purchasing := m.purchasing + [p], quantityPurchased := bought,
       purchasedCost := m.purchasedCost + p.itemCost * p.itemCount,
       purchaseComplete := m.purchaseComplete || bought >= m.quantity)
  }

  function PurchaseAdded(l: Ledger, typeID: int, p: Purchase): Ledger
  {
    var i := IndexOfMaterial(l.materials, typeID);
    if typeID == 0 || i == |l.materials| then l
    else
      l.(materials := l.materials[i := Bought(l.materials[i], p)],
         totalPurchaseCost := l.totalPurchaseCost + p.itemCost * p.itemCount)
  }

  /** Put a transaction behind those that are as new: what a stable sort by date does with the last. */
  function Insert(ts: seq<Transaction>, t: Transaction): seq<Transaction>
  {
    if ts == [] || ts[0].date < t.date then [t] + ts else [ts[0]] + Insert(ts[1..], t)
  }

  /** The stable sort of a list, newest first. */
  function NewestFirst(ts: seq<Transaction>): seq<Transaction>
  {
    if ts == [] then [] else Insert(NewestFirst(ts[..|ts| - 1]), ts[|ts| - 1])
  }

  function OrderFor(orders: seq<Order>, activeOrder: Option<int>): int
    requires orders != []
  {
    if activeOrder.Some? && activeOrder.value != 0 && |orders| > 1 then activeOrder.value else orders[0].orderID
  }

  function Normalized(parse: string -> Option<real>, order: int, rs: seq<RawTransaction>): (ts: seq<Transaction>)
    ensures |ts| == |rs|
  {
    if rs == [] then []
    else
      [Transaction(Ids.NormalizeTransactionID(parse, rs[0].id), order, rs[0].location, rs[0].date)]
      + Normalized(parse, order, rs[1..])
  }

  lemma NormalizedStep(
    parse: string -> Option<real>, order: int, ts: seq<Transaction>, raw: seq<RawTransaction>, i: nat)
    requires i < |raw|
    ensures var t := Transaction(Ids.NormalizeTransactionID(parse, raw[i].id), order, raw[i].location, raw[i].date);
      ts + Normalized(parse, order, raw[i..]) == (ts + [t]) + Normalized(parse, order, raw[i + 1..])
  {
    assert raw[i..][1..] == raw[i + 1..];
  }

  function IdsOf(ts: seq<Transaction>): set<int>
  {
    set t | t in ts :: t.id
  }

  /** `None` is the error of a job that has transactions to add but no market order. */
  function TransactionsAdded(
    l: Ledger, parse: string -> Option<real>, rs: seq<RawTransaction>, activeOrder: Option<int>)
    : Option<Ledger>
  {
    if rs == [] then Some(l.(transactions := NewestFirst(l.transactions)))
    else if l.marketOrders == [] then None
    else
      var ts := Normalized(parse, OrderFor(l.marketOrders, activeOrder), rs);
      Some(l.(apiTransactions := l.apiTransactions + IdsOf(ts), transactions := NewestFirst(l.transactions + ts)))
  }

  function TransactionRemoved(l: Ledger, id: int): Ledger
  {
    l.(transactions := Filter(l.transactions, OtherTransaction(id)), apiTransactions := l.apiTransactions - {id})
  }

  function TransactionsAway(ts: seq<Transaction>, location: int): seq<Transaction>
  {
    Filter(ts, NotAt(location))
  }

  function IdsAt(ts: seq<Transaction>, location: int): set<int>
  {
    IdsOf(Filter(ts, At(location)))
  }

  /** `fee` is the order that the broker's fee is for. */
  function OrderAdded(l: Ledger, o: Order, fee: int): Ledger
  {
    l.(brokersFee := l.brokersFee + [fee], marketOrders := l.marketOrders + [o], apiOrders := l.apiOrders + {o.orderID})
  }

  function OrderRemoved(l: Ledger, o: Order): Ledger
  {
    l.(brokersFee := Filter(l.brokersFee, OtherFee(o.orderID)),
       marketOrders := Filter(l.marketOrders, OtherOrder(o.orderID)),
       apiTransactions := l.apiTransactions - IdsAt(l.transactions, o.location),
       transactions := TransactionsAway(l.transactions, o.location),
       apiOrders := l.apiOrders - {o.orderID})
  }

  /** Removing an order keeps the ids those of the stored transactions exactly when no transaction that
      goes with it shares its id with one that stays: all blank ids are normalized to 0. */
  lemma OrderRemovalAgreesExactly(l: Ledger, o: Order)
    requires l.apiTransactions == IdsOf(l.transactions)
    ensures OrderRemoved(l, o).apiTransactions == IdsOf(OrderRemoved(l, o).transactions)
       <==> IdsAt(l.transactions, o.location) !! IdsOf(TransactionsAway(l.transactions, o.location))
  {
    var gone, kept := Filter(l.transactions, At(o.location)), Filter(l.transactions, NotAt(o.location));
    assert IdsOf(l.transactions) == IdsOf(gone) + IdsOf(kept) by {
      assert forall t :: t in l.transactions <==> t in gone || t in kept;
    }
  }

  // ----- The job -----

  class Job {
    var linkedJobs: seq<LinkedJob>
    var installCosts: Option<real>
    var apiJobs: set<int>
    var extrasCosts: seq<Extra>
    var extrasTotal: real
    var inventionEntries: seq<Invention>
    var inventionCosts: real
    var materials: seq<Material>
    var totalPurchaseCost: real
    var marketOrders: seq<Order>
    var brokersFee: seq<int>
    var apiOrders: set<int>
    var transactions: seq<Transaction>
    var apiTransactions: set<int>

    function View(): Ledger
      reads this
    {
      Ledger(linkedJobs, installCosts, apiJobs, extrasCosts, extrasTotal, inventionEntries, inventionCosts, materials,
             totalPurchaseCost, marketOrders, brokersFee, apiOrders, transactions, apiTransactions)
    }

    method RepairInstallCosts() returns (costs: real)
      modifies `installCosts
      ensures costs == Repaired(old(View())) && installCosts == Some(costs)
    {
      if installCosts == None || installCosts.value < 0.0 {
        var sum := SumOf(linkedJobs, JOB_COST);
        installCosts := Some(sum);
      }
      costs := installCosts.value;
    }

    method LinkESIJob(esiJob: LinkedJob)
      modifies this
      ensures View() == Linked(old(View()), esiJob)
      ensures linkedJobs == old(linkedJobs) + [esiJob] && apiJobs == old(apiJobs) + {esiJob.jobID}
    {
      var costs := RepairInstallCosts();
      apiJobs := apiJobs + {esiJob.jobID};
      linkedJobs := linkedJobs + [esiJob];
      installCosts := Some(costs + esiJob.cost);
    }

    method UnlinkESIJob(linkedJob: LinkedJob)
      modifies this
      ensures View() == Unlinked(old(View()), linkedJob)
      ensures forall j :: j in linkedJobs <==> j in old(linkedJobs) && j.jobID != linkedJob.jobID
      ensures apiJobs == old(apiJobs) - {linkedJob.jobID}
    {
      var costs := RepairInstallCosts();
      apiJobs := apiJobs - {linkedJob.jobID};
      linkedJobs := Filter(linkedJobs, OtherJob(linkedJob.jobID));
      installCosts := Some(costs - linkedJob.cost);
    }

    method AddExtrasCost(id: string, category: Option<string>, value: real)
      modifies this
      ensures View() == ExtraAdded(old(View()), id, category, value)
      ensures category.Some? && category.value != "" ==>
        extrasCosts == old(extrasCosts) + [Extra(id, category.value, value)]
      ensures category == None || category.value == "" ==> extrasCosts == old(extrasCosts) + [Extra(id, "0", value)]
    {
      extrasCosts := extrasCosts + [Extra(id, CategoryOf(category), value)];
      extrasTotal := SumOf(extrasCosts, EXTRA_VALUE);
    }

    method RemoveExtrasCost(id: string)
      modifies this
      ensures View() == ExtraRemoved(old(View()), id)
      ensures forall e :: e in extrasCosts <==> e in old(extrasCosts) && e.id != id
    {
      extrasCosts := Filter(extrasCosts, OtherExtra(id));
      extrasTotal := SumOf(extrasCosts, EXTRA_VALUE);
    }

    method AddInventionCost(entry: Invention)
      modifies this
      ensures View() == InventionAdded(old(View()), entry)
      ensures inventionEntries == old(inventionEntries) + [entry]
    {
      inventionEntries := inventionEntries + [entry];
      inventionCosts := inventionCosts + entry.cost;
      totalPurchaseCost := totalPurchaseCost + entry.cost;
    }

    method RemoveInventionCost(entry: Invention)
      modifies this
      ensures View() == InventionRemoved(old(View()), entry)
      ensures forall e :: e in inventionEntries <==> e in old(inventionEntries) && e.id != entry.id
    {
      inventionEntries := Filter(inventionEntries, OtherInvention(entry.id));
      inventionCosts := inventionCosts - entry.cost;
      totalPurchaseCost := totalPurchaseCost - entry.cost;
    }

    method AddPurchaseCostToMaterial(materialID: int, purchase: Purchase)
      modifies this
      ensures View() == PurchaseAdded(old(View()), materialID, purchase)
      ensures materialID == 0 || (forall m :: m in old(materials) ==> m.typeID != materialID) ==>
        View() == old(View())
      ensures forall i | materialID != 0 && IsFirst(old(materials), i, materialID) ::
        var m, m' := old(materials)[i], materials[i];
        && |materials| == |old(materials)| && materials == old(materials)[i := m']
        && m'.typeID == m.typeID && m'.quantity == m.quantity && m'.purchasing == m.purchasing + [purchase]
        && m'.quantityPurchased == m.quantityPurchased + purchase.itemCount
        && (m'.purchaseComplete <==> m.purchaseComplete || m'.quantityPurchased >= m.quantity)
    {
      if materialID == 0 {
        return;
      }
      var i := IndexOfMaterial(materials, materialID);
      if i == |materials| {
        return;
      }
      var m := materials[i];
      m := m.(purchasing := m.purchasing + [purchase]);
      m := m.(quantityPurchased := m.quantityPurchased + purchase.itemCount);
      m := m.(purchasedCost := m.purchasedCost + purchase.itemCost * purchase.itemCount);
      if m.quantityPurchased >= m.quantity {
        m := m.(purchaseComplete := true);
      }
      assert m == Bought(materials[i], purchase);
      materials := materials[i := m];
      totalPurchaseCost := totalPurchaseCost + purchase.itemCost * purchase.itemCount;
    }

    method TotalRawMaterialPurchaseCost() returns (total: real)
      ensures total == Sum(materials, MATERIAL_RAW)
    {
      total := 0.0;
      for i := 0 to |materials|
        invariant total == Sum(materials[..i], MATERIAL_RAW)
      {
        assert materials[..i + 1] == materials[..i] + [materials[i]];
        SumOne(materials[..i], materials[i], MATERIAL_RAW);
        var spent := SumOf(materials[i].purchasing, RAW_SPENT);
        total := total + spent;
      }
      assert materials[..|materials|] == materials;
    }

    /** The loop that completes the transactions. False stands for the error of reading the first of no
        market orders. */
    method CompleteTransactions(parse: string -> Option<real>, raw: seq<RawTransaction>, activeOrder: Option<int>)
      returns (ok: bool, ts: seq<Transaction>)
      ensures ok == (raw == [] || marketOrders != [])
      ensures ok ==> ts == if raw == [] then [] else Normalized(parse, OrderFor(marketOrders, activeOrder), raw)
      ensures ok ==> |ts| == |raw|
      ensures ok ==> forall i :: 0 <= i < |ts| ==>
        && ts[i].id == Ids.NormalizeTransactionID(parse, raw[i].id)
        && ts[i].location == raw[i].location && ts[i].date == raw[i].date
        && ts[i].orderID == if activeOrder.Some? && activeOrder.value != 0 && |marketOrders| > 1 then activeOrder.value
                            else marketOrders[0].orderID
    {
      ts := [];
      ghost var order := if marketOrders == [] then 0 else OrderFor(marketOrders, activeOrder);
      ghost var all := Normalized(parse, order, raw);
      assert raw[0..] == raw;
      for i := 0 to |raw|
        invariant marketOrders == [] ==> i == 0
        invariant ts + Normalized(parse, order, raw[i..]) == all
        invariant |ts| == i
        invariant forall j :: 0 <= j < i ==>
          && ts[j].id == Ids.NormalizeTransactionID(parse, raw[j].id)
          && ts[j].location == raw[j].location && ts[j].date == raw[j].date
          && ts[j].orderID ==
             if activeOrder.Some? && activeOrder.value != 0 && |marketOrders| > 1 then activeOrder.value
             else marketOrders[0].orderID
      {
        var id := Ids.NormalizeTransactionID(parse, raw[i].id);
        var orderID;
        if activeOrder.Some? && activeOrder.value != 0 && |marketOrders| > 1 {
          orderID := activeOrder.value;
        } else {
          if marketOrders == [] {
            return false, [];
          }
          orderID := marketOrders[0].orderID;
        }
        NormalizedStep(parse, order, ts, raw, i);
        ts := ts + [Transaction(id, orderID, raw[i].location, raw[i].date)];
      }
      assert raw[|raw|..] == [] && ts + [] == ts;
      ok := true;
    }

    /** Where the source fails, the job stays as it was. */
    method AddTransaction(parse: string -> Option<real>, raw: seq<RawTransaction>, activeOrder: Option<int>)
      returns (ok: bool)
      modifies this
      ensures var r := TransactionsAdded(old(View()), parse, raw, activeOrder);
        ok == r.Some? && View() == if ok then r.value else old(View())
    {
      var ts;
      ok, ts := CompleteTransactions(parse, raw, activeOrder);
      if !ok {
        return;
      }
      assert transactions + [] == transactions && apiTransactions + IdsOf([]) == apiTransactions;
      apiTransactions := apiTransactions + IdsOf(ts);
      transactions := NewestFirst(transactions + ts);
    }

    method RemoveTransaction(id: int)
      modifies this
      ensures View() == TransactionRemoved(old(View()), id)
      ensures forall t :: t in transactions <==> t in old(transactions) && t.id != id
    {
      transactions := Filter(transactions, OtherTransaction(id));
      apiTransactions := apiTransactions - {id};
    }

    method AddMarketOrder(order: Order, fee: int)
      modifies this
      ensures View() == OrderAdded(old(View()), order, fee)
      ensures marketOrders == old(marketOrders) + [order] && brokersFee == old(brokersFee) + [fee]
    {
      brokersFee := brokersFee + [fee];
      marketOrders := marketOrders + [order];
      apiOrders := apiOrders + {order.orderID};
    }

    method RemoveTransactionsAt(location: int)
      modifies `transactions, `apiTransactions
      ensures apiTransactions == old(apiTransactions) - IdsAt(old(transactions), location)
      ensures transactions == TransactionsAway(old(transactions), location)
    {
      var gone := Filter(transactions, At(location));
      apiTransactions := apiTransactions - IdsOf(gone);
      transactions := Filter(transactions, NotAt(location));
    }

    method RemoveFeesOf(orderID: int)
      modifies `brokersFee
      ensures brokersFee == Filter(old(brokersFee), OtherFee(orderID))
    {
      brokersFee := Filter(brokersFee, OtherFee(orderID));
    }

    method RemoveMarketOrder(order: Order)
      modifies this
      ensures View() == OrderRemoved(old(View()), order)
      ensures forall o :: o in marketOrders <==> o in old(marketOrders) && o.orderID != order.orderID
      ensures forall fee :: fee in brokersFee <==> fee in old(brokersFee) && fee != order.orderID
      ensures forall t :: t in transactions <==> t in old(transactions) && t.location != order.location
    {
      RemoveFeesOf(order.orderID);
      marketOrders := Filter(marketOrders, OtherOrder(order.orderID));
      RemoveTransactionsAt(order.location);
      apiOrders := apiOrders - {order.orderID};
    }
  }

  /** `reduce` with addition. */
  method SumOf<T>(s: seq<T>, f: T -> real) returns (sum: real)
    ensures sum == Sum(s, f)
  {
    sum := 0.0;
    for i := 0 to |s|
      invariant sum == Sum(s[..i], f)
    {
      assert s[..i + 1] == s[..i] + [s[i]];
      SumOne(s[..i], s[i], f);
      sum := sum + f(s[i]);
    }
    assert s[..|s|] == s;
  }

  // ----- Newest first -----

  ghost predicate Sorted(ts: seq<Transaction>)
  {
    forall i, j :: 0 <= i < j < |ts| ==> ts[i].date >= ts[j].date
  }

  function On(date: int): Transaction -> bool
  {
    (t: Transaction) => t.date == date
  }

  lemma {:induction false} InsertSorts(ts: seq<Transaction>, t: Transaction)
    requires Sorted(ts)
    ensures Sorted(Insert(ts, t))
    ensures forall x :: x in Insert(ts, t) <==> x in ts || x == t
  {
    if ts != [] && ts[0].date >= t.date {
      var rest := Insert(ts[1..], t);
      InsertSorts(ts[1..], t);
      assert ts == [ts[0]] + ts[1..];
      forall i | 0 <= i < |rest|
        ensures rest[i].date <= ts[0].date
      {
        assert rest[i] in rest;
        assert forall j :: 0 <= j < |ts[1..]| ==> ts[1..][j] == ts[j + 1];
      }
    }
  }

  lemma {:induction false} InsertPermutes(ts: seq<Transaction>, t: Transaction)
    ensures multiset(Insert(ts, t)) == multiset(ts) + multiset{t}
  {
    if ts != [] && ts[0].date >= t.date {
      InsertPermutes(ts[1..], t);
      assert ts == [ts[0]] + ts[1..];
    }
  }

  lemma {:induction false} InsertIsStable(ts: seq<Transaction>, t: Transaction, date: int)
    requires Sorted(ts)
    ensures Filter(Insert(ts, t), On(date)) == Filter(ts, On(date)) + if t.date == date then [t] else []
  {
    FilterOne(t, On(date));
    if ts == [] || ts[0].date < t.date {
      FilterAppend([t], ts, On(date));
      if t.date == date {
        FilterNone(ts, On(date));
      }
    } else {
      InsertIsStable(ts[1..], t, date);
      assert ([ts[0]] + Insert(ts[1..], t))[1..] == Insert(ts[1..], t);
    }
  }

  lemma {:induction false} NewestFirstIsSorted(ts: seq<Transaction>)
    ensures Sorted(NewestFirst(ts))
  {
    if ts != [] {
      NewestFirstIsSorted(ts[..|ts| - 1]);
      InsertSorts(NewestFirst(ts[..|ts| - 1]), ts[|ts| - 1]);
    }
  }

  lemma {:induction false} NewestFirstPermutes(ts: seq<Transaction>)
    ensures multiset(NewestFirst(ts)) == multiset(ts)
  {
    if ts != [] {
      var init, t := ts[..|ts| - 1], ts[|ts| - 1];
      NewestFirstPermutes(init);
      InsertPermutes(NewestFirst(init), t);
      assert ts == init + [t];
    }
  }

  lemma FilterLast(init: seq<Transaction>, t: Transaction, date: int)
    ensures Filter(init + [t], On(date)) == Filter(init, On(date)) + if t.date == date then [t] else []
  {
    FilterAppend(init, [t], On(date));
    FilterOne(t, On(date));
  }

  lemma StableStep(init: seq<Transaction>, sorted: seq<Transaction>, t: Transaction, date: int)
    requires sorted == NewestFirst(init) && Filter(sorted, On(date)) == Filter(init, On(date))
    ensures Filter(Insert(sorted, t), On(date)) == Filter(init + [t], On(date))
  {
    NewestFirstIsSorted(init);
    InsertIsStable(sorted, t, date);
    FilterLast(init, t, date);
  }

  lemma {:induction false} NewestFirstIsStable(ts: seq<Transaction>, date: int)
    ensures Filter(NewestFirst(ts), On(date)) == Filter(ts, On(date))
  {
    if ts != [] {
      var init, t := ts[..|ts| - 1], ts[|ts| - 1];
      NewestFirstIsStable(init, date);
      StableStep(init, NewestFirst(init), t, date);
      assert ts == init + [t];
    }
  }

  /** The sort yields the same transactions, newest first, and those of one date in their old order. */
  lemma NewestFirstSorts(ts: seq<Transaction>, date: int)
    ensures Sorted(NewestFirst(ts)) && multiset(NewestFirst(ts)) == multiset(ts)
    ensures Filter(NewestFirst(ts), On(date)) == Filter(ts, On(date))
  {
    NewestFirstIsSorted(ts);
    NewestFirstPermutes(ts);
    NewestFirstIsStable(ts, date);
  }

  // ----- Balance -----

  const JOB_KEY: LinkedJob -> int := (j: LinkedJob) => j.jobID
  const INVENTION_KEY: Invention -> string := (i: Invention) => i.id
  const TRANSACTION_KEY: Transaction -> int := (t: Transaction) => t.id

  ghost predicate InstallOk(l: Ledger)
  {
    && l.installCosts == Some(Sum(l.linkedJobs, JOB_COST))
    && l.apiJobs == (set j | j in l.linkedJobs :: j.jobID) && Distinct(l.linkedJobs, JOB_KEY)
  }

  ghost predicate InventionsOk(l: Ledger)
  {
    l.inventionCosts == Sum(l.inventionEntries, INVENTION_COST) && Distinct(l.inventionEntries, INVENTION_KEY)
  }

  ghost predicate PurchasesOk(l: Ledger)
  {
    && l.totalPurchaseCost == Sum(l.inventionEntries, INVENTION_COST) + Sum(l.materials, MATERIAL_SPENT)
    && AllCounted(l.materials)
  }

  ghost predicate SalesOk(l: Ledger)
  {
    && l.apiOrders == (set o | o in l.marketOrders :: o.orderID)
    && l.apiTransactions == IdsOf(l.transactions) && Distinct(l.transactions, TRANSACTION_KEY) && Sorted(l.transactions)
  }

  /** Every cached total and id set is what a computation from scratch would give. */
  ghost predicate Balanced(l: Ledger)
  {
    InstallOk(l) && l.extrasTotal == Sum(l.extrasCosts, EXTRA_VALUE) && InventionsOk(l) && PurchasesOk(l) && SalesOk(l)
  }

  /** Unlinking takes its cost argument off the total and all jobs with its id off the list: they
      agree afterwards exactly when those jobs cost that much. */
  lemma UnlinkAgreesExactly(l: Ledger, j: LinkedJob)
    requires l.installCosts == Some(Sum(l.linkedJobs, JOB_COST))
    ensures var l' := Unlinked(l, j);
      l'.installCosts == Some(Sum(l'.linkedJobs, JOB_COST))
      <==> Sum(Filter(l.linkedJobs, SameJob(j.jobID)), JOB_COST) == j.cost
  {
    SumSplits(l.linkedJobs, OtherJob(j.jobID), SameJob(j.jobID), JOB_COST);
  }

  /** The same for an invention, whose cost is in two totals: both agree afterwards, or neither does. */
  lemma InventionRemovalAgreesExactly(l: Ledger, i: Invention)
    requires l.inventionCosts == Sum(l.inventionEntries, INVENTION_COST)
    ensures var l' := InventionRemoved(l, i);
      l'.inventionCosts == Sum(l'.inventionEntries, INVENTION_COST)
      <==> Sum(Filter(l.inventionEntries, SameInvention(i.id)), INVENTION_COST) == i.cost
    ensures var l' := InventionRemoved(l, i);
      l.totalPurchaseCost == Sum(l.inventionEntries, INVENTION_COST) + Sum(l.materials, MATERIAL_SPENT) ==>
        (l'.totalPurchaseCost == Sum(l'.inventionEntries, INVENTION_COST) + Sum(l'.materials, MATERIAL_SPENT)
         <==> Sum(Filter(l.inventionEntries, SameInvention(i.id)), INVENTION_COST) == i.cost)
  {
    SumSplits(l.inventionEntries, OtherInvention(i.id), SameInvention(i.id), INVENTION_COST);
  }

  /** A total that is NaN or negative is put right by the next link or unlink. */
  lemma RepairRestores(l: Ledger, j: LinkedJob)
    requires l.installCosts == None || l.installCosts.value < 0.0
    ensures Linked(l, j).installCosts == Some(Sum(Linked(l, j).linkedJobs, JOB_COST))
    ensures j in l.linkedJobs && Distinct(l.linkedJobs, JOB_KEY) ==>
      Unlinked(l, j).installCosts == Some(Sum(Unlinked(l, j).linkedJobs, JOB_COST))
  {
    SumOne(l.linkedJobs, j, JOB_COST);
    if j in l.linkedJobs && Distinct(l.linkedJobs, JOB_KEY) {
      UnlinkStored(l, j);
    }
  }

  lemma UnlinkStored(l: Ledger, j: LinkedJob)
    requires j in l.linkedJobs && Distinct(l.linkedJobs, JOB_KEY)
    ensures Sum(Unlinked(l, j).linkedJobs, JOB_COST) == Sum(l.linkedJobs, JOB_COST) - j.cost
  {
    var same := SameJob(j.jobID);
    SumSplits(l.linkedJobs, OtherJob(j.jobID), same, JOB_COST);
    FilterStored(l.linkedJobs, same, JOB_KEY, j);
    SumOne([], j, JOB_COST);
    assert [] + [j] == [j];
  }

  lemma RemoveStoredInvention(l: Ledger, i: Invention)
    requires i in l.inventionEntries && Distinct(l.inventionEntries, INVENTION_KEY)
    ensures Sum(InventionRemoved(l, i).inventionEntries, INVENTION_COST)
         == Sum(l.inventionEntries, INVENTION_COST) - i.cost
  {
    var same := SameInvention(i.id);
    SumSplits(l.inventionEntries, OtherInvention(i.id), same, INVENTION_COST);
    FilterStored(l.inventionEntries, same, INVENTION_KEY, i);
    SumOne([], i, INVENTION_COST);
    assert [] + [i] == [i];
  }

  lemma {:induction false} SumUpdate<T>(s: seq<T>, i: nat, x: T, f: T -> real)
    requires i < |s|
    ensures Sum(s[i := x], f) == Sum(s, f) - f(s[i]) + f(x)
  {
    if i == 0 {
      assert s[i := x][1..] == s[1..];
    } else {
      assert s[i := x][1..] == s[1..][i - 1 := x];
      SumUpdate(s[1..], i - 1, x, f);
    }
  }

  ghost predicate Counted(m: Material)
  {
    m.quantityPurchased == Sum(m.purchasing, COUNT) && m.purchasedCost == Sum(m.purchasing, SPENT)
  }

  ghost predicate AllCounted(ms: seq<Material>)
  {
    forall i :: 0 <= i < |ms| ==> Counted(ms[i])
  }

  lemma ReplacedKeepsPurchases(l: Ledger, i: nat, m: Material, spent: real)
    requires PurchasesOk(l) && i < |l.materials| && Counted(m)
    requires MATERIAL_SPENT(m) == MATERIAL_SPENT(l.materials[i]) + spent
    ensures PurchasesOk(l.(materials := l.materials[i := m], totalPurchaseCost := l.totalPurchaseCost + spent))
  {
    SumUpdate(l.materials, i, m, MATERIAL_SPENT);
    ReplaceCounted(l.materials, i, m);
  }

  lemma PurchaseKeepsBalance(l: Ledger, typeID: int, p: Purchase)
    requires PurchasesOk(l)
    ensures PurchasesOk(PurchaseAdded(l, typeID, p))
  {
    var i := IndexOfMaterial(l.materials, typeID);
    if typeID != 0 && i < |l.materials| {
      BoughtSums(l.materials[i], p);
      ReplacedKeepsPurchases(l, i, Bought(l.materials[i], p), p.itemCost * p.itemCount);
    }
  }

  lemma ReplaceCounted(ms: seq<Material>, i: nat, m: Material)
    requires i < |ms| && AllCounted(ms) && Counted(m)
    ensures AllCounted(ms[i := m])
  {
    var ms' := ms[i := m];
    forall k | 0 <= k < |ms'|
      ensures Counted(ms'[k])
    {
      assert ms'[k] == if k == i then m else ms[k];
    }
  }

  lemma BoughtSums(m: Material, p: Purchase)
    ensures MATERIAL_SPENT(Bought(m, p)) == MATERIAL_SPENT(m) + p.itemCost * p.itemCount
    ensures Counted(m) ==> Counted(Bought(m, p))
  {
    SumOne(m.purchasing, p, SPENT);
    SumOne(m.purchasing, p, COUNT);
  }

  lemma {:induction false} SumOfTwo<T(!new)>(s: seq<T>, f: T -> real, g: T -> real, h: T -> real)
    requires forall x :: f(x) == g(x) + h(x)
    ensures Sum(s, f) == Sum(s, g) + Sum(s, h)
  {
    if s != [] {
      SumOfTwo(s[1..], f, g, h);
    }
  }

  /** In a balanced job the total is what inventions, raw materials and imports from child jobs cost. */
  lemma RawAndImportedMakeTotal(l: Ledger)
    requires Balanced(l)
    ensures forall p: Purchase :: RAW_SPENT(p) == if p.childJobImport then 0.0 else p.itemCost * p.itemCount
    ensures l.totalPurchaseCost
         == l.inventionCosts + Sum(l.materials, MATERIAL_RAW) + Sum(l.materials, MATERIAL_IMPORTED)
  {
    forall m: Material
      ensures MATERIAL_SPENT(m) == MATERIAL_RAW(m) + MATERIAL_IMPORTED(m)
    {
      SumOfTwo(m.purchasing, SPENT, RAW_SPENT, IMPORT_SPENT);
    }
    SumOfTwo(l.materials, MATERIAL_SPENT, MATERIAL_RAW, MATERIAL_IMPORTED);
  }

  // ----- Runs -----

  datatype Op =
    | Link(j: LinkedJob)
    | Unlink(j: LinkedJob)
    | AddExtra(id: string, category: Option<string>, value: real)
    | RemoveExtra(id: string)
    | AddInvention(i: Invention)
    | RemoveInvention(i: Invention)
    | AddPurchase(typeID: int, p: Purchase)
    | AddTransactions(raw: seq<RawTransaction>, activeOrder: Option<int>)
    | RemoveTransaction(transactionID: int)
    | AddOrder(o: Order, fee: int)
    | RemoveOrder(o: Order)

  function Apply(parse: string -> Option<real>, l: Ledger, op: Op): Ledger
  {
    match op
    case Link(j) => Linked(l, j)
    case Unlink(j) => Unlinked(l, j)
    case AddExtra(id, category, value) => ExtraAdded(l, id, category, value)
    case RemoveExtra(id) => ExtraRemoved(l, id)
    case AddInvention(i) => InventionAdded(l, i)
    case RemoveInvention(i) => InventionRemoved(l, i)
    case AddPurchase(typeID, p) => PurchaseAdded(l, typeID, p)
    case AddTransactions(raw, activeOrder) =>
      var r := TransactionsAdded(l, parse, raw, activeOrder);
      if r.Some? then r.value else l
    case RemoveTransaction(id) => TransactionRemoved(l, id)
    case AddOrder(o, fee) => OrderAdded(l, o, fee)
    case RemoveOrder(o) => OrderRemoved(l, o)
  }

  /** Ids are new when entries are added, and entries are stored when their cost is taken off. */
  ghost predicate Allowed(parse: string -> Option<real>, l: Ledger, op: Op)
  {
    match op
    case Link(j) => j.jobID !in l.apiJobs
    case Unlink(j) => j in l.linkedJobs
    case AddInvention(i) => forall e :: e in l.inventionEntries ==> e.id != i.id
    case RemoveInvention(i) => i in l.inventionEntries
    case AddTransactions(raw, _) =>
      var ts := Normalized(parse, 0, raw);
      Distinct(ts, TRANSACTION_KEY) && forall t :: t in ts ==> t.id !in l.apiTransactions
    case _ => true
  }

  lemma {:induction false} OrderDoesNotMatter(parse: string -> Option<real>, a: int, b: int, raw: seq<RawTransaction>)
    ensures forall i :: 0 <= i < |raw| ==> Normalized(parse, a, raw)[i].id == Normalized(parse, b, raw)[i].id
  {
    if raw != [] {
      OrderDoesNotMatter(parse, a, b, raw[1..]);
    }
  }

  lemma {:induction false} InsertKeepsIds(ts: seq<Transaction>, t: Transaction)
    ensures IdsOf(Insert(ts, t)) == IdsOf(ts) + {t.id}
    ensures Distinct(ts, TRANSACTION_KEY) && t.id !in IdsOf(ts) ==> Distinct(Insert(ts, t), TRANSACTION_KEY)
  {
    if ts != [] && ts[0].date >= t.date {
      InsertKeepsIds(ts[1..], t);
      IdsOfCons(ts[0], ts[1..]);
      IdsOfCons(ts[0], Insert(ts[1..], t));
      assert ts == [ts[0]] + ts[1..];
      if Distinct(ts, TRANSACTION_KEY) && t.id !in IdsOf(ts) {
        DistinctCons(ts[0], ts[1..]);
        DistinctCons(ts[0], Insert(ts[1..], t));
      }
    } else {
      IdsOfCons(t, ts);
      DistinctCons(t, ts);
    }
  }

  lemma IdsOfCons(t: Transaction, ts: seq<Transaction>)
    ensures IdsOf([t] + ts) == {t.id} + IdsOf(ts)
  {
    assert forall x :: x in [t] + ts <==> x == t || x in ts;
  }

  lemma JoinedDistinct(a: seq<Transaction>, b: seq<Transaction>)
    requires Distinct(a, TRANSACTION_KEY) && Distinct(b, TRANSACTION_KEY) && IdsOf(a) !! IdsOf(b)
    ensures Distinct(a + b, TRANSACTION_KEY)
  {
    forall i, j | 0 <= i < j < |a + b|
      ensures TRANSACTION_KEY((a + b)[i]) != TRANSACTION_KEY((a + b)[j])
    {
      if i < |a| <= j {
        assert a[i].id in IdsOf(a) && b[j - |a|].id in IdsOf(b);
      }
    }
  }

  lemma HeadIsFresh(t: Transaction, ts: seq<Transaction>)
    requires Distinct([t] + ts, TRANSACTION_KEY)
    ensures Distinct(ts, TRANSACTION_KEY) && t.id !in IdsOf(ts)
  {
    var all := [t] + ts;
    forall i, j | 0 <= i < j < |ts|
      ensures TRANSACTION_KEY(ts[i]) != TRANSACTION_KEY(ts[j])
    {
      assert TRANSACTION_KEY(all[i + 1]) != TRANSACTION_KEY(all[j + 1]);
    }
    forall i | 0 <= i < |ts|
      ensures ts[i].id != t.id
    {
      assert TRANSACTION_KEY(all[0]) != TRANSACTION_KEY(all[i + 1]);
    }
  }

  lemma DistinctCons(t: Transaction, ts: seq<Transaction>)
    ensures Distinct([t] + ts, TRANSACTION_KEY) <==> Distinct(ts, TRANSACTION_KEY) && t.id !in IdsOf(ts)
  {
    if Distinct([t] + ts, TRANSACTION_KEY) {
      HeadIsFresh(t, ts);
    }
    if Distinct(ts, TRANSACTION_KEY) && t.id !in IdsOf(ts) {
      JoinedDistinct([t], ts);
    }
  }

  lemma IdsOfAppend(a: seq<Transaction>, b: seq<Transaction>)
    ensures IdsOf(a + b) == IdsOf(a) + IdsOf(b)
  {
    assert forall x :: x in a + b <==> x in a || x in b;
  }

  lemma {:induction false} NewestFirstKeepsIds(ts: seq<Transaction>)
    ensures IdsOf(NewestFirst(ts)) == IdsOf(ts)
    ensures Distinct(ts, TRANSACTION_KEY) ==> Distinct(NewestFirst(ts), TRANSACTION_KEY)
  {
    if ts != [] {
      var init, t := ts[..|ts| - 1], ts[|ts| - 1];
      NewestFirstKeepsIds(init);
      InsertKeepsIds(NewestFirst(init), t);
      assert ts == init + [t];
      IdsOfAppend(init, [t]);
      assert IdsOf([t]) == {t.id};
    }
  }

  lemma AddingTransactionsKeepsSales(parse: string -> Option<real>, l: Ledger, op: Op)
    requires SalesOk(l) && op.AddTransactions? && Allowed(parse, l, op)
    ensures SalesOk(Apply(parse, l, op))
  {
    var ts := [];
    if op.raw != [] && l.marketOrders != [] {
      ts := Normalized(parse, OrderFor(l.marketOrders, op.activeOrder), op.raw);
      var us := Normalized(parse, 0, op.raw);
      OrderDoesNotMatter(parse, 0, OrderFor(l.marketOrders, op.activeOrder), op.raw);
      forall i, j | 0 <= i < j < |ts|
        ensures TRANSACTION_KEY(ts[i]) != TRANSACTION_KEY(ts[j])
      {
        assert TRANSACTION_KEY(us[i]) != TRANSACTION_KEY(us[j]);
      }
      forall i | 0 <= i < |ts|
        ensures ts[i].id !in l.apiTransactions
      {
        assert us[i] in us;
      }
    }
    var all := l.transactions + ts;
    assert ts == [] ==> all == l.transactions;
    JoinedDistinct(l.transactions, ts);
    IdsOfAppend(l.transactions, ts);
    NewestFirstIsSorted(all);
    NewestFirstKeepsIds(all);
  }

  lemma {:induction false} FilterSorted(ts: seq<Transaction>, p: Transaction -> bool)
    requires Sorted(ts)
    ensures Sorted(Filter(ts, p))
  {
    if ts != [] {
      FilterSorted(ts[1..], p);
      var rest := Filter(ts[1..], p);
      forall i | 0 <= i < |rest|
        ensures rest[i].date <= ts[0].date
      {
        assert rest[i] in ts[1..];
      }
    }
  }

  lemma RemovingKeepsSales(parse: string -> Option<real>, l: Ledger, op: Op)
    requires SalesOk(l) && (op.RemoveTransaction? || op.RemoveOrder?)
    ensures SalesOk(Apply(parse, l, op))
  {
    var keep := if op.RemoveTransaction? then OtherTransaction(op.transactionID) else NotAt(op.o.location);
    FilterSorted(l.transactions, keep);
    FilterDistinct(l.transactions, keep, TRANSACTION_KEY);
    if op.RemoveOrder? {
      var gone := Filter(l.transactions, At(op.o.location));
      var kept := Filter(l.transactions, keep);
      forall t, u | t in gone && u in kept
        ensures t.id != u.id
      {
        var i :| 0 <= i < |l.transactions| && l.transactions[i] == t;
        var j :| 0 <= j < |l.transactions| && l.transactions[j] == u;
      }
      assert IdsOf(kept) == IdsOf(l.transactions) - IdsOf(gone);
    }
  }

  lemma LinkingKeepsInstall(l: Ledger, j: LinkedJob)
    requires InstallOk(l) && j.jobID !in l.apiJobs
    ensures InstallOk(Linked(l, j))
  {
    SumOne(l.linkedJobs, j, JOB_COST);
    var js := l.linkedJobs + [j];
    assert forall i :: 0 <= i < |l.linkedJobs| ==> l.linkedJobs[i] in l.linkedJobs;
    assert forall x :: x in js <==> x in l.linkedJobs || x == j;
  }

  lemma UnlinkingKeepsInstall(l: Ledger, j: LinkedJob)
    requires InstallOk(l) && j in l.linkedJobs
    ensures InstallOk(Unlinked(l, j))
  {
    UnlinkStored(l, j);
    FilterDistinct(l.linkedJobs, OtherJob(j.jobID), JOB_KEY);
  }

  lemma AddingKeepsInventions(l: Ledger, i: Invention)
    requires InventionsOk(l) && PurchasesOk(l) && forall e :: e in l.inventionEntries ==> e.id != i.id
    ensures InventionsOk(InventionAdded(l, i)) && PurchasesOk(InventionAdded(l, i))
  {
    SumOne(l.inventionEntries, i, INVENTION_COST);
  }

  lemma RemovingKeepsInventions(l: Ledger, i: Invention)
    requires InventionsOk(l) && PurchasesOk(l) && i in l.inventionEntries
    ensures InventionsOk(InventionRemoved(l, i)) && PurchasesOk(InventionRemoved(l, i))
  {
    RemoveStoredInvention(l, i);
    FilterDistinct(l.inventionEntries, OtherInvention(i.id), INVENTION_KEY);
  }

  lemma OrderingKeepsSales(l: Ledger, o: Order, fee: int)
    requires SalesOk(l)
    ensures SalesOk(OrderAdded(l, o, fee))
  {
    assert forall x :: x in l.marketOrders + [o] <==> x in l.marketOrders || x == o;
  }

  lemma CostStepKeepsBalance(parse: string -> Option<real>, l: Ledger, op: Op)
    requires Balanced(l) && Allowed(parse, l, op)
    requires op.Link? || op.Unlink? || op.AddInvention? || op.RemoveInvention? || op.AddPurchase?
    ensures Balanced(Apply(parse, l, op))
  {
    match op {
      case Link(j) => LinkingKeepsInstall(l, j);
      case Unlink(j) => UnlinkingKeepsInstall(l, j);
      case AddInvention(i) => AddingKeepsInventions(l, i);
      case RemoveInvention(i) => RemovingKeepsInventions(l, i);
      case AddPurchase(typeID, p) => PurchaseKeepsBalance(l, typeID, p);
    }
  }

  lemma SaleStepKeepsBalance(parse: string -> Option<real>, l: Ledger, op: Op)
    requires Balanced(l) && Allowed(parse, l, op)
    requires op.AddTransactions? || op.RemoveTransaction? || op.AddOrder? || op.RemoveOrder?
    ensures Balanced(Apply(parse, l, op))
  {
    match op {
      case AddTransactions(_, _) => AddingTransactionsKeepsSales(parse, l, op);
      case RemoveTransaction(_) => RemovingKeepsSales(parse, l, op);
      case AddOrder(o, fee) => OrderingKeepsSales(l, o, fee);
      case RemoveOrder(_) => RemovingKeepsSales(parse, l, op);
    }
  }

  lemma StepKeepsBalance(parse: string -> Option<real>, l: Ledger, op: Op)
    requires Balanced(l) && Allowed(parse, l, op)
    ensures Balanced(Apply(parse, l, op))
  {
    match op {
      case AddExtra(_, _, _) =>
      case RemoveExtra(_) =>
      case AddTransactions(_, _) => SaleStepKeepsBalance(parse, l, op);
      case RemoveTransaction(_) => SaleStepKeepsBalance(parse, l, op);
      case AddOrder(_, _) => SaleStepKeepsBalance(parse, l, op);
      case RemoveOrder(_) => SaleStepKeepsBalance(parse, l, op);
      case _ => CostStepKeepsBalance(parse, l, op);
    }
  }

  ghost predicate Run(parse: string -> Option<real>, ls: seq<Ledger>, ops: seq<Op>)
  {
    && |ls| == |ops| + 1
    && forall i :: 0 <= i < |ops| ==> Allowed(parse, ls[i], ops[i]) && ls[i + 1] == Apply(parse, ls[i], ops[i])
  }

  /** Over every run from a balanced job, such as an empty one, the job is balanced at each step. */
  lemma {:induction false} RunsStayBalanced(parse: string -> Option<real>, ls: seq<Ledger>, ops: seq<Op>, n: nat)
    requires Run(parse, ls, ops) && n < |ls| && Balanced(ls[0])
    ensures Balanced(ls[n])
  {
    if n > 0 {
      RunsStayBalanced(parse, ls, ops, n - 1);
      StepKeepsBalance(parse, ls[n - 1], ops[n - 1]);
    }
  }
}
