/** What is left to buy for a selection of jobs (frontend/src/Classes/shoppingList.js). */
module ShoppingLists {
  import opened Seqs
  import opened Text

  /** `childJobs` is the number of child jobs that make the material. */
  datatype Material = Material(
    name: string, typeID: int, quantity: int, quantityPurchased: int, volume: real, childJobs: nat)

  datatype Item = Item(
    name: string, typeID: int, quantityRequired: int, quantityToPurchase: int, assetQuantity: int, volume: real,
    hasChild: bool, isVisible: bool, includeWhenCopying: bool)

  datatype Key = Key(typeID: int, hasChild: bool)

  function KeyOf(i: Item): Key
  {
    Key(i.typeID, i.hasChild)
  }

  function KeyOfMaterial(m: Material): Key
  {
    Key(m.typeID, m.childJobs > 0)
  }

  /** What is still to be bought; nothing when enough was. */
  function Shortfall(m: Material): int
  {
    if m.quantityPurchased >= m.quantity then 0 else m.quantity - m.quantityPurchased
  }

  // ----- The list, one material at a time -----

  function NewItem(m: Material): Item
  {
    Item(m.name, m.typeID, m.quantity, m.quantity - m.quantityPurchased, 0, m.volume, m.childJobs > 0, false, true)
  }

  function IndexOfKey(items: seq<Item>, k: Key): (i: nat)
    ensures i <= |items| && (i < |items| ==> KeyOf(items[i]) == k)
    ensures forall j :: 0 <= j < i ==> KeyOf(items[j]) != k
  {
    if items == [] || KeyOf(items[0]) == k then 0 else 1 + IndexOfKey(items[1..], k)
  }

  function Listed(items: seq<Item>, m: Material): seq<Item>
  {
    if m.quantityPurchased >= m.quantity then items
    else
      var i := IndexOfKey(items, KeyOfMaterial(m));
      if i == |items| then items + [NewItem(m)]
      else items[i := items[i].(quantityToPurchase := items[i].quantityToPurchase + (m.quantity - m.quantityPurchased))]
  }

  function ListedAll(items: seq<Item>, ms: seq<Material>): seq<Item>
    decreases |ms|
  {
    if ms == [] then items else ListedAll(Listed(items, ms[0]), ms[1..])
  }

  lemma {:induction false} ListedAllAppend(items: seq<Item>, a: seq<Material>, b: seq<Material>)
    ensures ListedAll(items, a + b) == ListedAll(ListedAll(items, a), b)
    decreases |a|
  {
    if a == [] {
      assert a + b == b;
    } else {
      assert (a + b)[1..] == a[1..] + b;
      ListedAllAppend(Listed(items, a[0]), a[1..], b);
    }
  }

  function Flatten(jobs: seq<seq<Material>>): seq<Material>
  {
    if jobs == [] then [] else jobs[0] + Flatten(jobs[1..])
  }

  // ----- The sort by name, which is stable -----

  function Insert(items: seq<Item>, x: Item): seq<Item>
  {
    if items == [] || Less(x.name, items[0].name) then [x] + items else [items[0]] + Insert(items[1..], x)
  }

  function ByName(items: seq<Item>): seq<Item>
  {
    if items == [] then [] else Insert(ByName(items[..|items| - 1]), items[|items| - 1])
  }

  // ----- The class -----

  function StillNeeded(i: Item): int
  {
    if i.quantityToPurchase - i.assetQuantity > 0 then i.quantityToPurchase - i.assetQuantity else 0
  }

  function Shown(i: Item, displayChildJobMaterials: bool): Item
  {
    i.(isVisible := StillNeeded(i) > 0 && (displayChildJobMaterials || !i.hasChild))
  }

  function Volume(items: seq<Item>): real
  {
    if items == [] then 0.0
    else
      (if items[0].isVisible && items[0].includeWhenCopying then items[0].volume * StillNeeded(items[0]) as real
       else 0.0)
      + Volume(items[1..])
  }

  class ShoppingList {
    var items: seq<Item>
    var totalVolume: real

    /** The constructor gets the materials of each job. */
    constructor (jobs: seq<seq<Material>>)
      ensures items == ByName(ListedAll([], Flatten(jobs))) && totalVolume == 0.0
    {
      new;
      var list := BuildShoppingList(jobs);
      items := list;
      totalVolume := 0.0;
    }

    /** The inner loop, over the materials of one job. */
    static method ListMaterials(before: seq<Item>, materials: seq<Material>) returns (items: seq<Item>)
      ensures items == ListedAll(before, materials)
    {
      items := before;
      for k := 0 to |materials|
        invariant ListedAll(items, materials[k..]) == ListedAll(before, materials)
      {
        assert materials[k..][1..] == materials[k + 1..];
        var m := materials[k];
        if m.quantityPurchased >= m.quantity {
          continue;
        }
        var childState := m.childJobs > 0;
        var j := IndexOfKey(items, Key(m.typeID, childState));
        if j == |items| {
          items := items + [NewItem(m)];
        } else {
          var q := items[j].quantityToPurchase + (m.quantity - m.quantityPurchased);
          items := items[j := items[j].(quantityToPurchase := q)];
        }
      }
    }

    static method BuildShoppingList(jobs: seq<seq<Material>>) returns (items: seq<Item>)
      ensures items == ByName(ListedAll([], Flatten(jobs)))
    {
      items := [];
      for i := 0 to |jobs|
        invariant ListedAll(items, Flatten(jobs[i..])) == ListedAll([], Flatten(jobs))
      {
        assert jobs[i..][1..] == jobs[i + 1..];
        ListedAllAppend(items, jobs[i], Flatten(jobs[i + 1..]));
        items := ListMaterials(items, jobs[i]);
      }
      items := ByName(items);
    }

    method CalculateVisibleItems(displayChildJobMaterials: bool)
      modifies `items
      ensures |items| == |old(items)|
      ensures forall i :: 0 <= i < |items| ==> items[i] == Shown(old(items)[i], displayChildJobMaterials)
      ensures forall i :: 0 <= i < |items| ==>
        (items[i].isVisible <==>
           items[i].quantityToPurchase > items[i].assetQuantity && (items[i].hasChild ==> displayChildJobMaterials))
    {
      for i := 0 to |items|
        invariant |items| == |old(items)|
        invariant forall k :: 0 <= k < i ==> items[k] == Shown(old(items)[k], displayChildJobMaterials)
        invariant forall k :: i <= k < |items| ==> items[k] == old(items)[k]
      {
        var item := items[i];
        var quantityZeroOrLess := !(StillNeeded(item) > 0);
        var hideIntermediaryItems := !displayChildJobMaterials && item.hasChild;
        if quantityZeroOrLess {
          items := items[i := item.(isVisible := false)];
        } else if hideIntermediaryItems {
          items := items[i := item.(isVisible := false)];
        } else {
          items := items[i := item.(isVisible := true)];
        }
      }
    }

    method CalculateTotalVolume()
      modifies `totalVolume
      ensures totalVolume == Volume(items)
    {
      totalVolume := 0.0;
      for i := 0 to |items|
        invariant totalVolume + Volume(items[i..]) == Volume(items)
      {
        assert items[i..][1..] == items[i + 1..];
        if !items[i].isVisible || !items[i].includeWhenCopying {
          continue;
        }
        totalVolume := totalVolume + items[i].volume * StillNeeded(items[i]) as real;
      }
    }
  }

  // ----- The volume -----

  lemma {:induction false} VolumeAppend(a: seq<Item>, b: seq<Item>)
    ensures Volume(a + b) == Volume(a) + Volume(b)
  {
    if a == [] {
      assert a + b == b;
    } else {
      assert (a + b)[1..] == a[1..] + b;
      VolumeAppend(a[1..], b);
    }
  }

  /** One item more adds the volume of what is not in the assets yet, if it is shown and copied. */
  lemma VolumeOfOneMore(items: seq<Item>, x: Item)
    ensures var missing := x.quantityToPurchase - x.assetQuantity;
      Volume(items + [x]) == Volume(items) +
        if x.isVisible && x.includeWhenCopying && missing > 0 then x.volume * missing as real else 0.0
  {
    VolumeAppend(items, [x]);
    assert [x][1..] == [] && Volume([]) == 0.0;
    if StillNeeded(x) == 0 {
      assert x.volume * 0.0 == 0.0;
    }
  }

  // ----- What the list says -----

  /** What is to be bought of a kind, over all materials of that kind. */
  function Need(ms: seq<Material>, k: Key): int
  {
    if ms == [] then 0 else (if KeyOfMaterial(ms[0]) == k then Shortfall(ms[0]) else 0) + Need(ms[1..], k)
  }

  function TotalShortfall(ms: seq<Material>): int
  {
    if ms == [] then 0 else Shortfall(ms[0]) + TotalShortfall(ms[1..])
  }

  function Quantity(items: seq<Item>, k: Key): int
  {
    if items == [] then 0
    else (if KeyOf(items[0]) == k then items[0].quantityToPurchase else 0) + Quantity(items[1..], k)
  }

  function TotalQuantity(items: seq<Item>): int
  {
    if items == [] then 0 else items[0].quantityToPurchase + TotalQuantity(items[1..])
  }

  ghost predicate OnePerKey(items: seq<Item>)
  {
    forall i, j :: 0 <= i < j < |items| ==> KeyOf(items[i]) != KeyOf(items[j])
  }

  lemma {:induction false} QuantityUpdate(items: seq<Item>, i: nat, x: Item, k: Key)
    requires i < |items| && KeyOf(x) == KeyOf(items[i])
    ensures Quantity(items[i := x], k)
         == Quantity(items, k) + if KeyOf(x) == k then x.quantityToPurchase - items[i].quantityToPurchase else 0
    ensures TotalQuantity(items[i := x]) == TotalQuantity(items) + x.quantityToPurchase - items[i].quantityToPurchase
  {
    if i == 0 {
      assert items[i := x][1..] == items[1..];
    } else {
      assert items[i := x][1..] == items[1..][i - 1 := x];
      QuantityUpdate(items[1..], i - 1, x, k);
    }
  }

  lemma {:induction false} QuantityAppend(items: seq<Item>, x: Item, k: Key)
    ensures Quantity(items + [x], k) == Quantity(items, k) + if KeyOf(x) == k then x.quantityToPurchase else 0
    ensures TotalQuantity(items + [x]) == TotalQuantity(items) + x.quantityToPurchase
  {
    if items == [] {
      assert items + [x] == [x] && [x][1..] == [];
    } else {
      assert (items + [x])[1..] == items[1..] + [x];
      QuantityAppend(items[1..], x, k);
    }
  }

  lemma ListedStep(items: seq<Item>, m: Material, k: Key)
    requires OnePerKey(items)
    ensures var items' := Listed(items, m);
      && OnePerKey(items')
      && Quantity(items', k) == Quantity(items, k) + (if KeyOfMaterial(m) == k then Shortfall(m) else 0)
      && TotalQuantity(items') == TotalQuantity(items) + Shortfall(m)
  {
    if m.quantityPurchased < m.quantity {
      var i := IndexOfKey(items, KeyOfMaterial(m));
      if i == |items| {
        QuantityAppend(items, NewItem(m), k);
      } else {
        QuantityUpdate(items, i, Listed(items, m)[i], k);
      }
    }
  }

  lemma {:induction false} ListedAllSums(items: seq<Item>, ms: seq<Material>, k: Key)
    requires OnePerKey(items)
    ensures var items' := ListedAll(items, ms);
      && OnePerKey(items')
      && Quantity(items', k) == Quantity(items, k) + Need(ms, k)
      && TotalQuantity(items') == TotalQuantity(items) + TotalShortfall(ms)
    decreases |ms|
  {
    if ms != [] {
      ListedStep(items, ms[0], k);
      ListedAllSums(Listed(items, ms[0]), ms[1..], k);
    }
  }

  ghost predicate AllPositive(items: seq<Item>)
  {
    forall i :: 0 <= i < |items| ==> items[i].quantityToPurchase > 0
  }

  lemma {:induction false} ListedAllPositive(items: seq<Item>, ms: seq<Material>)
    requires AllPositive(items)
    ensures AllPositive(ListedAll(items, ms))
    decreases |ms|
  {
    if ms != [] {
      ListedAllPositive(Listed(items, ms[0]), ms[1..]);
    }
  }

  ghost predicate SortedByName(items: seq<Item>)
  {
    forall i, j :: 0 <= i < j < |items| ==> AtMost(items[i].name, items[j].name)
  }

  lemma {:induction false} InsertSorts(items: seq<Item>, x: Item)
    requires SortedByName(items)
    ensures SortedByName(Insert(items, x))
    ensures forall y :: y in Insert(items, x) <==> y in items || y == x
  {
    if items == [] {
    } else if Less(x.name, items[0].name) {
      forall i | 0 <= i < |items|
        ensures AtMost(x.name, items[i].name)
      {
        LessTrichotomous(x.name, items[0].name);
        if i > 0 {
          AtMostTransitive(x.name, items[0].name, items[i].name);
        }
      }
    } else {
      InsertSorts(items[1..], x);
      var rest := Insert(items[1..], x);
      assert items == [items[0]] + items[1..];
      forall i | 0 <= i < |rest|
        ensures AtMost(items[0].name, rest[i].name)
      {
        assert rest[i] in rest;
      }
    }
  }

  lemma {:induction false} InsertPermutes(items: seq<Item>, x: Item)
    ensures multiset(Insert(items, x)) == multiset(items) + multiset{x}
  {
    if items != [] && !Less(x.name, items[0].name) {
      InsertPermutes(items[1..], x);
      assert items == [items[0]] + items[1..];
    }
  }

  /** From A to Z: no name precedes, at the first place where they differ, one that stands before it. */
  ghost predicate InNameOrder(items: seq<Item>)
  {
    forall i, j :: 0 <= i < j < |items| ==> !Precedes(items[j].name, items[i].name)
  }

  lemma SortedIsInOrder(items: seq<Item>)
    requires SortedByName(items)
    ensures InNameOrder(items)
  {
    forall i, j | 0 <= i < j < |items|
      ensures !Precedes(items[j].name, items[i].name)
    {
      LessMeaning(items[j].name, items[i].name);
    }
  }

  lemma ByNameSorts(items: seq<Item>)
    ensures InNameOrder(ByName(items)) && multiset(ByName(items)) == multiset(items)
  {
    ByNameIsSorted(items);
    SortedIsInOrder(ByName(items));
  }

  lemma {:induction false} ByNameIsSorted(items: seq<Item>)
    ensures SortedByName(ByName(items)) && multiset(ByName(items)) == multiset(items)
  {
    if items != [] {
      var init := items[..|items| - 1];
      var x := items[|items| - 1];
      ByNameIsSorted(init);
      InsertSorts(ByName(init), x);
      InsertPermutes(ByName(init), x);
      assert items == init + [x];
      assert multiset(items) == multiset(init) + multiset{x};
    }
  }

  lemma {:induction false} QuantityOfKey(items: seq<Item>, i: nat)
    requires OnePerKey(items) && i < |items|
    ensures Quantity(items, KeyOf(items[i])) == items[i].quantityToPurchase
  {
    if i == 0 {
      QuantityAbsent(items[1..], KeyOf(items[0]));
    } else {
      assert OnePerKey(items[1..]);
      QuantityOfKey(items[1..], i - 1);
    }
  }

  lemma {:induction false} QuantityAbsent(items: seq<Item>, k: Key)
    requires forall i :: 0 <= i < |items| ==> KeyOf(items[i]) != k
    ensures Quantity(items, k) == 0
  {
    if items != [] {
      QuantityAbsent(items[1..], k);
    }
  }

  lemma {:induction false} OnceEach(items: seq<Item>, x: Item)
    requires OnePerKey(items)
    ensures multiset(items)[x] <= 1
  {
    if items != [] {
      OnceEach(items[1..], x);
      assert items == [items[0]] + items[1..];
      if x == items[0] {
        assert forall i :: 0 <= i < |items[1..]| ==> items[1..][i] != x;
      }
    }
  }

  lemma PermutationKeepsKeys(items: seq<Item>, sorted: seq<Item>)
    requires OnePerKey(items) && multiset(sorted) == multiset(items)
    ensures OnePerKey(sorted)
  {
    forall i, j | 0 <= i < j < |sorted|
      ensures KeyOf(sorted[i]) != KeyOf(sorted[j])
    {
      var x, y := sorted[i], sorted[j];
      assert sorted == sorted[..j] + [y] + sorted[j + 1..] && x in sorted[..j];
      OnceEach(items, y);
      assert multiset(sorted)[y] <= 1;
      assert x in multiset(items) && y in multiset(items);
      var a :| 0 <= a < |items| && items[a] == x;
      var b :| 0 <= b < |items| && items[b] == y;
    }
  }

  lemma {:induction false} InsertTotal(items: seq<Item>, x: Item)
    ensures TotalQuantity(Insert(items, x)) == TotalQuantity(items) + x.quantityToPurchase
  {
    if items == [] || Less(x.name, items[0].name) {
      assert ([x] + items)[1..] == items;
    } else {
      InsertTotal(items[1..], x);
      assert ([items[0]] + Insert(items[1..], x))[1..] == Insert(items[1..], x);
    }
  }

  lemma {:induction false} ByNameTotal(items: seq<Item>)
    ensures TotalQuantity(ByName(items)) == TotalQuantity(items)
  {
    if items != [] {
      var init, x := items[..|items| - 1], items[|items| - 1];
      ByNameTotal(init);
      InsertTotal(ByName(init), x);
      QuantityAppend(init, x, KeyOf(x));
      assert items == init + [x];
    }
  }

  /** All shortfalls are on the list, and nothing else. */
  lemma ListConserves(ms: seq<Material>)
    ensures TotalQuantity(ByName(ListedAll([], ms))) == TotalShortfall(ms)
  {
    ListedAllSums([], ms, Key(0, false));
    ByNameTotal(ListedAll([], ms));
  }

  /** A shopping list is sorted by name; it has an item of a kind exactly when something of that kind
      is to be bought, with the sum of all its shortfalls, and one item of a kind. */
  lemma ListMeaning(ms: seq<Material>, k: Key)
    ensures var items := ByName(ListedAll([], ms));
      && InNameOrder(items) && OnePerKey(items)
      && ((exists x :: x in items && KeyOf(x) == k) <==> Need(ms, k) > 0)
      && (forall x :: x in items && KeyOf(x) == k ==> x.quantityToPurchase == Need(ms, k))
  {
    var listed := ListedAll([], ms);
    ListedAllSums([], ms, k);
    ListedAllPositive([], ms);
    ByNameSorts(listed);
    var items := ByName(listed);
    PermutationKeepsKeys(listed, items);
    assert forall x :: x in items <==> x in multiset(items);
    assert forall x :: x in listed <==> x in multiset(listed);
    forall x | x in items && KeyOf(x) == k
      ensures x.quantityToPurchase == Need(ms, k) && x.quantityToPurchase > 0
    {
      var i :| 0 <= i < |listed| && listed[i] == x;
      QuantityOfKey(listed, i);
    }
    if forall x :: x in items ==> KeyOf(x) != k {
      forall i | 0 <= i < |listed|
        ensures KeyOf(listed[i]) != k
      {
        assert listed[i] in listed;
      }
      QuantityAbsent(listed, k);
    }
  }

  // ----- The required quantity -----

  predicate IsListed(m: Material, k: Key)
  {
    KeyOfMaterial(m) == k && m.quantityPurchased < m.quantity
  }

  /** What all materials of a kind that are put on the list require. */
  function Required(ms: seq<Material>, k: Key): int
  {
    if ms == [] then 0 else (if IsListed(ms[0], k) then ms[0].quantity else 0) + Required(ms[1..], k)
  }

  /** What all of them but the first require. */
  function RequiredLater(ms: seq<Material>, k: Key): int
  {
    if ms == [] then 0 else if IsListed(ms[0], k) then Required(ms[1..], k) else RequiredLater(ms[1..], k)
  }

  function FirstListed(ms: seq<Material>, k: Key): Option<Material>
  {
    if ms == [] then None else if IsListed(ms[0], k) then Some(ms[0]) else FirstListed(ms[1..], k)
  }

  function ListedCount(ms: seq<Material>, k: Key): nat
  {
    if ms == [] then 0 else (if IsListed(ms[0], k) then 1 else 0) + ListedCount(ms[1..], k)
  }

  /** All of an item but what is to be bought of it. */
  function Frame(x: Item): Item
  {
    x.(quantityToPurchase := 0)
  }

  function FrameIn(items: seq<Item>, k: Key): Option<Item>
  {
    var i := IndexOfKey(items, k);
    if i < |items| then Some(Frame(items[i])) else None
  }

  function FirstFrame(ms: seq<Material>, k: Key): Option<Item>
  {
    if FirstListed(ms, k) == None then None else Some(Frame(NewItem(FirstListed(ms, k).value)))
  }

  lemma IndexOfKeyIs(items: seq<Item>, k: Key, i: nat)
    requires i <= |items| && (i < |items| ==> KeyOf(items[i]) == k)
    requires forall j :: 0 <= j < i ==> KeyOf(items[j]) != k
    ensures IndexOfKey(items, k) == i
  {
  }

  lemma ListedKeepsFrame(items: seq<Item>, m: Material, k: Key)
    ensures FrameIn(Listed(items, m), k)
         == if FrameIn(items, k) == None && IsListed(m, k) then Some(Frame(NewItem(m))) else FrameIn(items, k)
  {
    var i, items' := IndexOfKey(items, k), Listed(items, m);
    if m.quantityPurchased < m.quantity {
      assert forall j :: 0 <= j < |items| ==>
        KeyOf(items'[j]) == KeyOf(items[j]) && Frame(items'[j]) == Frame(items[j]);
      IndexOfKeyIs(items', k, if i < |items| || IsListed(m, k) then i else |items'|);
    }
  }

  lemma {:induction false} ListedAllKeepsFrame(items: seq<Item>, ms: seq<Material>, k: Key)
    ensures FrameIn(ListedAll(items, ms), k)
         == if FrameIn(items, k) == None then FirstFrame(ms, k) else FrameIn(items, k)
    decreases |ms|
  {
    if ms != [] {
      ListedKeepsFrame(items, ms[0], k);
      ListedAllKeepsFrame(Listed(items, ms[0]), ms[1..], k);
    }
  }

  /** An item has the name, the volume and the required quantity of the first material of its kind on
      the list, whatever is added later; nothing of it is in the assets, it is hidden, and it is copied. */
  lemma {:induction false} RequiredIsFirst(ms: seq<Material>, x: Item)
    requires x in ByName(ListedAll([], ms))
    ensures FirstListed(ms, KeyOf(x)).Some?
    ensures var m := FirstListed(ms, KeyOf(x)).value;
      && x.name == m.name && x.volume == m.volume && x.quantityRequired == m.quantity
      && x.assetQuantity == 0 && !x.isVisible && x.includeWhenCopying
  {
    var listed := ListedAll([], ms);
    ListedAllSums([], ms, KeyOf(x));
    ListedAllKeepsFrame([], ms, KeyOf(x));
    ByNameIsSorted(listed);
    assert x in multiset(ByName(listed));
    assert x in multiset(listed);
    var i :| 0 <= i < |listed| && listed[i] == x;
    IndexOfKeyIs(listed, KeyOf(x), i);
  }

  lemma {:induction false} RequiredSplits(ms: seq<Material>, k: Key)
    requires FirstListed(ms, k).Some?
    ensures Required(ms, k) == FirstListed(ms, k).value.quantity + RequiredLater(ms, k)
  {
    if !IsListed(ms[0], k) {
      RequiredSplits(ms[1..], k);
    }
  }

  lemma {:induction false} RequiredPositive(ms: seq<Material>, k: Key)
    requires forall i :: 0 <= i < |ms| ==> ms[i].quantityPurchased >= 0
    ensures Required(ms, k) >= 0 && (Required(ms, k) == 0 <==> ListedCount(ms, k) == 0)
  {
    if ms != [] {
      RequiredPositive(ms[1..], k);
    }
  }

  lemma {:induction false} LaterIsNothing(ms: seq<Material>, k: Key)
    requires FirstListed(ms, k).Some? && forall i :: 0 <= i < |ms| ==> ms[i].quantityPurchased >= 0
    ensures RequiredLater(ms, k) == 0 <==> ListedCount(ms, k) == 1
  {
    if IsListed(ms[0], k) {
      RequiredPositive(ms[1..], k);
    } else {
      LaterIsNothing(ms[1..], k);
    }
  }

  /** That is what its kind requires altogether exactly when the later materials require nothing: with
      no negative purchases, when only one material of the kind is on the list. */
  lemma {:induction false} RequiredIsSumExactly(ms: seq<Material>, x: Item)
    requires x in ByName(ListedAll([], ms))
    ensures x.quantityRequired == Required(ms, KeyOf(x)) <==> RequiredLater(ms, KeyOf(x)) == 0
    ensures (forall i :: 0 <= i < |ms| ==> ms[i].quantityPurchased >= 0) ==>
      (x.quantityRequired == Required(ms, KeyOf(x)) <==> ListedCount(ms, KeyOf(x)) == 1)
  {
    RequiredIsFirst(ms, x);
    RequiredSplits(ms, KeyOf(x));
    if forall i :: 0 <= i < |ms| ==> ms[i].quantityPurchased >= 0 {
      LaterIsNothing(ms, KeyOf(x));
    }
  }
}
