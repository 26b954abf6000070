/** The stock tree (src/routes/stockBalances.ts): two-level grouping of stock balances, the
    per-node endpoint that regroups one root, and the paging of child lists.  Quantities are
    integers in the smallest unit of the stored decimals. */
module StockTree {
  import opened Options
  import opened Sequences

  datatype Hierarchy = WarehouseProduct | ProductWarehouse

  datatype Totals = Totals(quantity: int, reserved: int, inStock: int, shipping: int, clientReserved: int,
      managerReserved: int, available: int)

  /** A stored row; the columns added later may be null. */
  datatype Balance = Balance(
    id: string, warehouse: string, product: string, quantity: int, reserved: int, inStock: Option<int>,
    shipping: Option<int>, clientReserved: Option<int>, managerReserved: Option<int>, available: Option<int>)

  datatype Leaf = Leaf(id: string, warehouse: string, product: string, totals: Totals)

  datatype Child = Child(totals: Totals, leafCount: nat, leaves: seq<Leaf>)

  datatype Root = Root(totals: Totals, childCount: nat, children: map<string, Child>)

  const ZERO := Totals(0, 0, 0, 0, 0, 0, 0)

  /** addTotals. */
  function Plus(a: Totals, b: Totals): Totals {
    Totals(a.quantity + b.quantity, a.reserved + b.reserved, a.inStock + b.inStock, a.shipping + b.shipping,
           a.clientReserved + b.clientReserved, a.managerReserved + b.managerReserved, a.available + b.available)
  }

  function ToLeaf(b: Balance): Leaf {
    Leaf(b.id, b.warehouse, b.product,
         Totals(b.quantity, b.reserved, b.inStock.GetOr(b.quantity), b.shipping.GetOr(0),
                b.clientReserved.GetOr(0), b.managerReserved.GetOr(0), b.available.GetOr(b.quantity - b.reserved)))
  }

  function RootKey(h: Hierarchy, leaf: Leaf): string {
    if h == WarehouseProduct then leaf.warehouse else leaf.product
  }

  function ChildKey(h: Hierarchy, leaf: Leaf): string {
    if h == WarehouseProduct then leaf.product else leaf.warehouse
  }

  // ---------------------------------------------------------------- the reference

  predicate Belongs(h: Hierarchy, leaf: Leaf, root: string, child: Option<string>) {
    RootKey(h, leaf) == root && (child.None? || child == Some(ChildKey(h, leaf)))
  }

  /** The leaves below a root, or below one child of it. */
  function Select(h: Hierarchy, leaves: seq<Leaf>, root: string, child: Option<string>): seq<Leaf> {
    if leaves == [] then []
    else
      var last := leaves[|leaves| - 1];
      Select(h, leaves[..|leaves| - 1], root, child) + if Belongs(h, last, root, child) then [last] else []
  }

  function Sum(leaves: seq<Leaf>): Totals {
    if leaves == [] then ZERO else Plus(Sum(leaves[..|leaves| - 1]), leaves[|leaves| - 1].totals)
  }

  /** One child node says exactly what lies below it. */
  ghost predicate ChildOk(h: Hierarchy, leaves: seq<Leaf>, compact: bool, children: map<string, Child>, root: string,
      c: string) {
    var cell := Select(h, leaves, root, Some(c));
    if c in children
    then cell != [] && children[c] == Child(Sum(cell), |cell|, if compact then [] else cell)
    else cell == []
  }

  ghost predicate ChildrenOk(h: Hierarchy, leaves: seq<Leaf>, compact: bool, children: map<string, Child>,
      root: string) {
    forall c {:trigger ChildOk(h, leaves, compact, children, root, c)} :: ChildOk(h, leaves, compact, children, root, c)
  }

  ghost predicate RootOk(h: Hierarchy, leaves: seq<Leaf>, compact: bool, roots: map<string, Root>, r: string) {
    var own := Select(h, leaves, r, None);
    if r in roots
    then own != [] && roots[r].totals == Sum(own) && roots[r].childCount == |roots[r].children|
         && ChildrenOk(h, leaves, compact, roots[r].children, r)
    else own == []
  }

  ghost predicate TreeOk(h: Hierarchy, leaves: seq<Leaf>, compact: bool, roots: map<string, Root>) {
    forall r {:trigger RootOk(h, leaves, compact, roots, r)} :: RootOk(h, leaves, compact, roots, r)
  }

  // ---------------------------------------------------------------- growing by one leaf

  lemma SelectStep(h: Hierarchy, leaves: seq<Leaf>, leaf: Leaf, root: string, child: Option<string>)
    ensures var before := Select(h, leaves, root, child);
      Select(h, leaves + [leaf], root, child) == if Belongs(h, leaf, root, child) then before + [leaf] else before
  {
    assert (leaves + [leaf])[..|leaves|] == leaves;
  }

  lemma SumStep(leaves: seq<Leaf>, leaf: Leaf)
    ensures Sum(leaves + [leaf]) == Plus(Sum(leaves), leaf.totals)
  {
    assert (leaves + [leaf])[..|leaves|] == leaves;
  }

  function Grown(child: Child, leaf: Leaf, compact: bool): Child {
    Child(Plus(child.totals, leaf.totals), child.leafCount + 1, if compact then [] else child.leaves + [leaf])
  }

  const NO_CHILD := Child(ZERO, 0, [])

  lemma ChildStep(h: Hierarchy, leaves: seq<Leaf>, leaf: Leaf, compact: bool, children: map<string, Child>,
      after: map<string, Child>, root: string, c: string)
    requires ChildOk(h, leaves, compact, children, root, c)
    requires if Belongs(h, leaf, root, Some(c))
             then c in after && after[c] == Grown(if c in children then children[c] else NO_CHILD, leaf, compact)
             else (c in after <==> c in children) && (c in after ==> after[c] == children[c])
    ensures ChildOk(h, leaves + [leaf], compact, after, root, c)
  {
    SelectStep(h, leaves, leaf, root, Some(c));
    SumStep(Select(h, leaves, root, Some(c)), leaf);
  }

  /** Under the root the leaf goes to. */
  lemma OwnRootStep(h: Hierarchy, leaves: seq<Leaf>, leaf: Leaf, compact: bool, children: map<string, Child>)
    requires var r := RootKey(h, leaf); ChildrenOk(h, leaves, compact, children, r)
    ensures var r, c := RootKey(h, leaf), ChildKey(h, leaf);
      ChildrenOk(h, leaves + [leaf], compact,
          children[c := Grown(if c in children then children[c] else NO_CHILD, leaf, compact)], r)
  {
    var r, key := RootKey(h, leaf), ChildKey(h, leaf);
    var after := children[key := Grown(if key in children then children[key] else NO_CHILD, leaf, compact)];
    var now := leaves + [leaf];
    forall c {:trigger ChildOk(h, now, compact, after, r, c)} ensures ChildOk(h, now, compact, after, r, c) {
      assert ChildOk(h, leaves, compact, children, r, c);
      ChildStep(h, leaves, leaf, compact, children, after, r, c);
    }
  }

  /** Under any other root nothing changes. */
  lemma OtherRootStep(h: Hierarchy, leaves: seq<Leaf>, leaf: Leaf, compact: bool, roots: map<string, Root>,
      after: map<string, Root>, r: string)
    requires r != RootKey(h, leaf) && RootOk(h, leaves, compact, roots, r)
    requires (r in after <==> r in roots) && (r in after ==> after[r] == roots[r])
    ensures RootOk(h, leaves + [leaf], compact, after, r)
  {
    SelectStep(h, leaves, leaf, r, None);
    if r in roots {
      var children, now := roots[r].children, leaves + [leaf];
      forall c {:trigger ChildOk(h, now, compact, children, r, c)} ensures ChildOk(h, now, compact, children, r, c) {
        assert ChildOk(h, leaves, compact, children, r, c);
        ChildStep(h, leaves, leaf, compact, children, children, r, c);
      }
    }
  }

  lemma {:induction false} NothingBelow(h: Hierarchy, leaves: seq<Leaf>, root: string, c: string)
    requires Select(h, leaves, root, None) == []
    ensures Select(h, leaves, root, Some(c)) == []
  {
    if leaves != [] { NothingBelow(h, leaves[..|leaves| - 1], root, c); }
  }

  // ---------------------------------------------------------------- the two grouping loops

  /** The /tree loop: one pass that finds or creates the root and the child of every balance and
      adds the balance to both. */
  method BuildTree(h: Hierarchy, balances: seq<Balance>, compact: bool)
      returns (leaves: seq<Leaf>, roots: map<string, Root>)
    ensures |leaves| == |balances| && forall i :: 0 <= i < |balances| ==> leaves[i] == ToLeaf(balances[i])
    ensures TreeOk(h, leaves, compact, roots)
  {
    leaves, roots := [], map[];
    for i := 0 to |balances|
      invariant |leaves| == i && forall j :: 0 <= j < i ==> leaves[j] == ToLeaf(balances[j])
      invariant TreeOk(h, leaves, compact, roots)
    {
      var leaf := ToLeaf(balances[i]);
      roots := AddLeaf(h, leaves, leaf, compact, roots);
      leaves := leaves + [leaf];
    }
  }

  method AddLeaf(h: Hierarchy, ghost leaves: seq<Leaf>, leaf: Leaf, compact: bool, roots: map<string, Root>)
      returns (after: map<string, Root>)
    requires TreeOk(h, leaves, compact, roots)
    ensures TreeOk(h, leaves + [leaf], compact, after)
  {
    var r := RootKey(h, leaf);
    EmptyRoot(h, leaves, compact, roots, r);
    var root := if r in roots then roots[r] else Root(ZERO, 0, map[]);
    var children, isNew := AddToChild(h, leaves, leaf, compact, root.children);
    root := Root(Plus(root.totals, leaf.totals), if isNew then root.childCount + 1 else root.childCount, children);
    after := roots[r := root];
    TreeStep(h, leaves, leaf, compact, roots, root);
  }

  /** Finds or creates the child node of a leaf and adds the leaf to it. */
  method AddToChild(h: Hierarchy, ghost leaves: seq<Leaf>, leaf: Leaf, compact: bool, children: map<string, Child>)
    returns (after: map<string, Child>, isNew: bool)
    requires ChildrenOk(h, leaves, compact, children, RootKey(h, leaf))
    ensures ChildrenOk(h, leaves + [leaf], compact, after, RootKey(h, leaf))
    ensures |after| == |children| + if isNew then 1 else 0
  {
    var c := ChildKey(h, leaf);
    OwnRootStep(h, leaves, leaf, compact, children);
    CompactHasNoLeaves(h, leaves, compact, children, RootKey(h, leaf), c);
    isNew := c !in children;
    var child := if isNew then NO_CHILD else children[c];
    ghost var was := child;
    child := child.(totals := Plus(child.totals, leaf.totals), leafCount := child.leafCount + 1);
    if !compact { child := child.(leaves := child.leaves + [leaf]); }
    assert child == Grown(was, leaf, compact);
    after := children[c := child];
  }

  lemma CompactHasNoLeaves(h: Hierarchy, leaves: seq<Leaf>, compact: bool, children: map<string, Child>, root: string,
      c: string)
    requires ChildrenOk(h, leaves, compact, children, root)
    ensures compact && c in children ==> children[c].leaves == []
  {
    assert ChildOk(h, leaves, compact, children, root, c);
  }

  lemma EmptyRoot(h: Hierarchy, leaves: seq<Leaf>, compact: bool, roots: map<string, Root>, r: string)
    requires TreeOk(h, leaves, compact, roots)
    ensures r in roots ==>
        roots[r].totals == Sum(Select(h, leaves, r, None)) && roots[r].childCount == |roots[r].children|
                           && ChildrenOk(h, leaves, compact, roots[r].children, r)
    ensures r !in roots ==> Select(h, leaves, r, None) == [] && ChildrenOk(h, leaves, compact, map[], r)
  {
    assert RootOk(h, leaves, compact, roots, r);
    if r !in roots {
      forall c {:trigger ChildOk(h, leaves, compact, map[], r, c)} ensures ChildOk(h, leaves, compact, map[], r, c) {
        NothingBelow(h, leaves, r, c);
      }
    }
  }

  lemma TreeStep(h: Hierarchy, leaves: seq<Leaf>, leaf: Leaf, compact: bool, roots: map<string, Root>, root: Root)
    requires TreeOk(h, leaves, compact, roots)
    requires var r := RootKey(h, leaf);
      root.totals == Plus(Sum(Select(h, leaves, r, None)), leaf.totals) && root.childCount == |root.children|
      && ChildrenOk(h, leaves + [leaf], compact, root.children, r)
    ensures TreeOk(h, leaves + [leaf], compact, roots[RootKey(h, leaf) := root])
  {
    var r := RootKey(h, leaf);
    var after, now := roots[r := root], leaves + [leaf];
    SelectStep(h, leaves, leaf, r, None);
    SumStep(Select(h, leaves, r, None), leaf);
    forall k {:trigger RootOk(h, now, compact, after, k)} ensures RootOk(h, now, compact, after, k) {
      if k != r {
        assert RootOk(h, leaves, compact, roots, k);
        OtherRootStep(h, leaves, leaf, compact, roots, after, k);
      }
    }
  }

  /** The /children loop over the balances of one root, with its own copy of the arithmetic. */
  method GroupChildren(h: Hierarchy, root: string, balances: seq<Balance>)
      returns (leaves: seq<Leaf>, children: map<string, Child>)
    requires forall i :: 0 <= i < |balances| ==> RootKey(h, ToLeaf(balances[i])) == root
    ensures |leaves| == |balances| && forall i :: 0 <= i < |balances| ==> leaves[i] == ToLeaf(balances[i])
    ensures ChildrenOk(h, leaves, true, children, root)
  {
    leaves, children := [], map[];
    for i := 0 to |balances|
      invariant |leaves| == i && forall j :: 0 <= j < i ==> leaves[j] == ToLeaf(balances[j])
      invariant ChildrenOk(h, leaves, true, children, root)
    {
      var b := balances[i];
      var inStock := if b.inStock.Some? then b.inStock.value else b.quantity;
      var available := if b.available.Some? then b.available.value else b.quantity - b.reserved;
      var leaf := Leaf(b.id, b.warehouse, b.product,
        Totals(b.quantity, b.reserved, inStock, b.shipping.GetOr(0), b.clientReserved.GetOr(0),
            b.managerReserved.GetOr(0), available));
      assert leaf == ToLeaf(b);
      var isNew;
      children, isNew := AddToChild(h, leaves, leaf, true, children);
      leaves := leaves + [leaf];
    }
  }

  // ---------------------------------------------------------------- one column at a time

  /** The seven totals and, as an eighth column, the number of leaves. */
  datatype Column = Quantity | Reserved | InStock | Shipping | ClientReserved | ManagerReserved | Available | Leaves

  function Value(t: Totals, leafCount: nat, col: Column): int {
    match col
    case Quantity => t.quantity
    case Reserved => t.reserved
    case InStock => t.inStock
    case Shipping => t.shipping
    case ClientReserved => t.clientReserved
    case ManagerReserved => t.managerReserved
    case Available => t.available
    case Leaves => leafCount
  }

  function ColumnSum(leaves: seq<Leaf>, col: Column): int {
    if leaves == [] then 0 else ColumnSum(leaves[..|leaves| - 1], col) + Value(leaves[|leaves| - 1].totals, 1, col)
  }

  lemma {:induction false} SumByColumn(leaves: seq<Leaf>, col: Column)
    ensures Value(Sum(leaves), |leaves|, col) == ColumnSum(leaves, col)
  {
    if leaves != [] { SumByColumn(leaves[..|leaves| - 1], col); }
  }

  lemma ColumnSumStep(leaves: seq<Leaf>, leaf: Leaf, col: Column)
    ensures ColumnSum(leaves + [leaf], col) == ColumnSum(leaves, col) + Value(leaf.totals, 1, col)
  {
    assert (leaves + [leaf])[..|leaves|] == leaves;
  }

  lemma EqualByColumn(a: Totals, m: nat, b: Totals, n: nat)
    requires forall col :: Value(a, m, col) == Value(b, n, col)
    ensures a == b && m == n
  {
    assert Value(a, m, Quantity) == Value(b, n, Quantity);
    assert Value(a, m, Reserved) == Value(b, n, Reserved);
    assert Value(a, m, InStock) == Value(b, n, InStock);
    assert Value(a, m, Shipping) == Value(b, n, Shipping);
    assert Value(a, m, ClientReserved) == Value(b, n, ClientReserved);
    assert Value(a, m, ManagerReserved) == Value(b, n, ManagerReserved);
    assert Value(a, m, Available) == Value(b, n, Available);
    assert Value(a, m, Leaves) == Value(b, n, Leaves);
  }

  // ---------------------------------------------------------------- conservation

  function SumCells(h: Hierarchy, leaves: seq<Leaf>, root: string, cs: seq<string>, col: Column): int {
    if cs == [] then 0
    else SumCells(h, leaves, root, cs[..|cs| - 1], col) + ColumnSum(Select(h, leaves, root, Some(cs[|cs| - 1])), col)
  }

  lemma CellStep(h: Hierarchy, leaves: seq<Leaf>, leaf: Leaf, root: string, c: string, col: Column)
    ensures ColumnSum(Select(h, leaves + [leaf], root, Some(c)), col)
        == ColumnSum(Select(h, leaves, root, Some(c)), col)
              + if RootKey(h, leaf) == root && ChildKey(h, leaf) == c then Value(leaf.totals, 1, col) else 0
  {
    SelectStep(h, leaves, leaf, root, Some(c));
    ColumnSumStep(Select(h, leaves, root, Some(c)), leaf, col);
  }

  /** A leaf is counted in exactly one of distinct cells. */
  lemma {:induction false} SumCellsStep(h: Hierarchy, leaves: seq<Leaf>, leaf: Leaf, root: string, cs: seq<string>,
      col: Column)
    requires Distinct(cs)
    ensures SumCells(h, leaves + [leaf], root, cs, col) == SumCells(h, leaves, root, cs, col)
              + if RootKey(h, leaf) == root && ChildKey(h, leaf) in cs then Value(leaf.totals, 1, col) else 0
  {
    if cs != [] {
      var k := |cs| - 1;
      LastIsNew(cs);
      SumCellsStep(h, leaves, leaf, root, cs[..k], col);
      CellStep(h, leaves, leaf, root, cs[k], col);
    }
  }

  lemma {:induction false} SumCellsOfNothing(h: Hierarchy, root: string, cs: seq<string>, col: Column)
    ensures SumCells(h, [], root, cs, col) == 0
  {
    if cs != [] { SumCellsOfNothing(h, root, cs[..|cs| - 1], col); }
  }

  /** The cells below a root add up to the root. */
  lemma {:induction false} CellsAddUp(h: Hierarchy, leaves: seq<Leaf>, root: string, cs: seq<string>, col: Column)
    requires Distinct(cs) && forall leaf :: leaf in leaves && RootKey(h, leaf) == root ==> ChildKey(h, leaf) in cs
    ensures SumCells(h, leaves, root, cs, col) == ColumnSum(Select(h, leaves, root, None), col)
  {
    if leaves == [] {
      SumCellsOfNothing(h, root, cs, col);
    } else {
      var before, leaf := leaves[..|leaves| - 1], leaves[|leaves| - 1];
      CellsAddUp(h, before, root, cs, col);
      assert leaves == before + [leaf];
      SumCellsStep(h, before, leaf, root, cs, col);
      SelectStep(h, before, leaf, root, None);
      ColumnSumStep(Select(h, before, root, None), leaf, col);
    }
  }

  function SumNodes(children: map<string, Child>, cs: seq<string>, col: Column): int
    requires forall c :: c in cs ==> c in children
  {
    if cs == [] then 0
    else
      var child := children[cs[|cs| - 1]];
      SumNodes(children, cs[..|cs| - 1], col) + Value(child.totals, child.leafCount, col)
  }

  lemma {:induction false} SumNodesIsCells(h: Hierarchy, leaves: seq<Leaf>, compact: bool,
      children: map<string, Child>, root: string, cs: seq<string>, col: Column)
    requires ChildrenOk(h, leaves, compact, children, root) && forall c :: c in cs ==> c in children
    ensures SumNodes(children, cs, col) == SumCells(h, leaves, root, cs, col)
  {
    if cs != [] {
      var c := cs[|cs| - 1];
      SumNodesIsCells(h, leaves, compact, children, root, cs[..|cs| - 1], col);
      assert ChildOk(h, leaves, compact, children, root, c);
      SumByColumn(Select(h, leaves, root, Some(c)), col);
    }
  }

  lemma {:induction false} OccupiedCell(h: Hierarchy, leaves: seq<Leaf>, leaf: Leaf)
    requires leaf in leaves
    ensures leaf in Select(h, leaves, RootKey(h, leaf), Some(ChildKey(h, leaf)))
  {
    var n := |leaves| - 1;
    if leaf != leaves[n] {
      assert leaf in leaves[..n];
      OccupiedCell(h, leaves[..n], leaf);
    }
  }

  /** Every root's seven totals are the sum over its leaves and, however the children are listed,
      the sum over its children; the children's leaf counts add up to the root's leaves. */
  lemma RootIsSumOfChildren(h: Hierarchy, leaves: seq<Leaf>, compact: bool, roots: map<string, Root>, r: string,
      cs: seq<string>, col: Column)
    requires TreeOk(h, leaves, compact, roots) && r in roots
    requires Distinct(cs) && forall c :: c in cs <==> c in roots[r].children
    ensures var own := Select(h, leaves, r, None);
      && Value(roots[r].totals, |own|, col) == ColumnSum(own, col)
      && SumNodes(roots[r].children, cs, col) == ColumnSum(own, col)
  {
    EmptyRoot(h, leaves, compact, roots, r);
    var children := roots[r].children;
    forall leaf | leaf in leaves && RootKey(h, leaf) == r ensures ChildKey(h, leaf) in cs {
      OccupiedCell(h, leaves, leaf);
      assert ChildOk(h, leaves, compact, children, r, ChildKey(h, leaf));
    }
    CellsAddUp(h, leaves, r, cs, col);
    SumNodesIsCells(h, leaves, compact, children, r, cs, col);
    SumByColumn(Select(h, leaves, r, None), col);
  }

  // ---------------------------------------------------------------- the order of rows does not matter

  lemma {:induction false} ColumnSumWithout(leaves: seq<Leaf>, i: nat, col: Column)
    requires i < |leaves|
    ensures ColumnSum(leaves, col) == ColumnSum(leaves[..i] + leaves[i + 1..], col) + Value(leaves[i].totals, 1, col)
  {
    var n := |leaves| - 1;
    var rest := leaves[..i] + leaves[i + 1..];
    if i == n {
      assert rest == leaves[..n];
    } else {
      ColumnSumWithout(leaves[..n], i, col);
      assert leaves[..n][..i] + leaves[..n][i + 1..] == rest[..|rest| - 1];
    }
  }

  lemma RemoveOne(a: seq<Leaf>, b: seq<Leaf>, i: nat)
    requires a != [] && multiset(a) == multiset(b) && i < |b| && b[i] == a[|a| - 1]
    ensures multiset(a[..|a| - 1]) == multiset(b[..i] + b[i + 1..])
  {
    var n := |a| - 1;
    assert a == a[..n] + [a[n]];
    assert b == b[..i] + ([b[i]] + b[i + 1..]);
    assert multiset(b) == multiset(b[..i]) + (multiset{b[i]} + multiset(b[i + 1..]));
    assert multiset(a[..n]) == multiset(a) - multiset{a[n]};
  }

  lemma {:induction false} SumOfPermutation(a: seq<Leaf>, b: seq<Leaf>, col: Column)
    requires multiset(a) == multiset(b)
    ensures ColumnSum(a, col) == ColumnSum(b, col)
  {
    assert |a| == |multiset(a)| == |multiset(b)| == |b|;
    if a != [] {
      var n := |a| - 1;
      assert a[n] in multiset(b);
      var i :| 0 <= i < |b| && b[i] == a[n];
      RemoveOne(a, b, i);
      SumOfPermutation(a[..n], b[..i] + b[i + 1..], col);
      ColumnSumWithout(b, i, col);
    }
  }

  lemma {:induction false} SelectMultiset(h: Hierarchy, leaves: seq<Leaf>, root: string, child: Option<string>, x: Leaf)
    ensures multiset(Select(h, leaves, root, child))[x] == if Belongs(h, x, root, child) then multiset(leaves)[x] else 0
  {
    if leaves != [] {
      var n := |leaves| - 1;
      var before, last := leaves[..n], leaves[n];
      SelectMultiset(h, before, root, child, x);
      assert leaves == before + [last];
      assert multiset(leaves)[x] == multiset(before)[x] + if x == last then 1 else 0;
      SelectStep(h, before, last, root, child);
    }
  }

  lemma SumsAgree(a: seq<Leaf>, b: seq<Leaf>)
    requires multiset(a) == multiset(b)
    ensures Sum(a) == Sum(b) && |a| == |b|
  {
    forall col ensures Value(Sum(a), |a|, col) == Value(Sum(b), |b|, col) {
      SumOfPermutation(a, b, col);
      SumByColumn(a, col);
      SumByColumn(b, col);
    }
    EqualByColumn(Sum(a), |a|, Sum(b), |b|);
  }

  /** Selections of the same cell from two orderings, possibly under different hierarchies. */
  lemma SameCell(h: Hierarchy, a: seq<Leaf>, r: string, c: string, k: Hierarchy, b: seq<Leaf>, s: string, d: string)
    requires multiset(a) == multiset(b)
    requires forall x :: Belongs(h, x, r, Some(c)) <==> Belongs(k, x, s, Some(d))
    ensures var p, q := Select(h, a, r, Some(c)), Select(k, b, s, Some(d));
      multiset(p) == multiset(q) && Sum(p) == Sum(q) && |p| == |q|
  {
    var p, q := Select(h, a, r, Some(c)), Select(k, b, s, Some(d));
    forall x ensures multiset(p)[x] == multiset(q)[x] {
      SelectMultiset(h, a, r, Some(c), x);
      SelectMultiset(k, b, s, Some(d), x);
    }
    assert multiset(p) == multiset(q);
    SumsAgree(p, q);
  }

  predicate SameNode(a: map<string, Child>, c: string, b: map<string, Child>, d: string) {
    && (c in a <==> d in b)
    && (c in a ==> a[c].totals == b[d].totals && a[c].leafCount == b[d].leafCount)
  }

  /** Switching the hierarchy transposes the cells: the node of a warehouse under a product is the
      node of that product under that warehouse, whatever order the two queries return. */
  lemma SwitchTransposes(a: seq<Leaf>, one: map<string, Root>, b: seq<Leaf>, two: map<string, Root>, compact: bool,
      w: string, p: string)
    requires multiset(a) == multiset(b)
    requires TreeOk(WarehouseProduct, a, compact, one) && TreeOk(ProductWarehouse, b, compact, two)
    ensures SameNode(if w in one then one[w].children else map[], p, if p in two then two[p].children else map[], w)
  {
    EmptyRoot(WarehouseProduct, a, compact, one, w);
    EmptyRoot(ProductWarehouse, b, compact, two, p);
    var left: map<string, Child> := if w in one then one[w].children else map[];
    var right: map<string, Child> := if p in two then two[p].children else map[];
    assert ChildOk(WarehouseProduct, a, compact, left, w, p);
    assert ChildOk(ProductWarehouse, b, compact, right, p, w);
    SameCell(WarehouseProduct, a, w, p, ProductWarehouse, b, p, w);
  }

  /** The /children endpoint, asked for a root, gives the children /tree gives for it. */
  lemma ChildrenAgreeWithTree(h: Hierarchy, leaves: seq<Leaf>, compact: bool, roots: map<string, Root>, r: string,
      rows: seq<Leaf>, children: map<string, Child>, c: string)
    requires TreeOk(h, leaves, compact, roots)
    requires multiset(rows) == multiset(Select(h, leaves, r, None)) && ChildrenOk(h, rows, true, children, r)
    ensures SameNode(if r in roots then roots[r].children else map[], c, children, c)
  {
    EmptyRoot(h, leaves, compact, roots, r);
    var left: map<string, Child> := if r in roots then roots[r].children else map[];
    assert ChildOk(h, leaves, compact, left, r, c);
    assert ChildOk(h, rows, true, children, r, c);
    var p, q := Select(h, leaves, r, Some(c)), Select(h, rows, r, Some(c));
    forall x ensures multiset(p)[x] == multiset(q)[x] {
      SelectMultiset(h, leaves, r, Some(c), x);
      SelectMultiset(h, rows, r, Some(c), x);
      SelectMultiset(h, leaves, r, None, x);
    }
    assert multiset(p) == multiset(q);
    SumsAgree(p, q);
  }

  // ---------------------------------------------------------------- paging a child list

  const MAX_OFFSET: nat := 5000
  const CHILDREN_PAGE_LIMIT_MAX: nat := 200

  /** parseNonNegativeInt on a number; an absent or non-numeric value takes the fallback. */
  function ParseNonNegativeInt(value: Option<int>, fallback: nat, max: nat): (r: nat)
    requires fallback <= max
    ensures r <= max
  {
    if value.None? then fallback else if value.value < 0 then 0 else if value.value > max then max else value.value
  }

  datatype Page<T> = Page(items: seq<T>, hasMore: bool)

  function Slice<T>(list: seq<T>, offset: nat, limit: nat): seq<T> {
    var a := if offset < |list| then offset else |list|;
    var b := if offset + limit < |list| then offset + limit else |list|;
    list[a..b]
  }

  function PageAt<T>(list: seq<T>, offset: Option<int>, limit: Option<int>): Page<T> {
    var o, l := ParseNonNegativeInt(offset, 0, MAX_OFFSET), ParseNonNegativeInt(limit, 50, CHILDREN_PAGE_LIMIT_MAX);
    Page(Slice(list, o, l), o + l < |list|)
  }

  /** What a client collects from its first n pages of size l. */
  function Pages<T>(list: seq<T>, l: nat, n: nat): seq<T> {
    if n == 0 then [] else Pages(list, l, n - 1) + PageAt(list, Some((n - 1) * l), Some(l)).items
  }

  /** The number of pages a list needs. */
  function PageCount(n: nat, l: nat): nat
    requires l > 0
  {
    (n + l - 1) / l
  }

  lemma PageCountIs(n: nat, l: nat)
    requires l > 0
    ensures var k := PageCount(n, l); k * l >= n && (n > 0 ==> k > 0 && (k - 1) * l < n)
  {
    var k := PageCount(n, l);
    assert n + l - 1 == k * l + (n + l - 1) % l;
    assert (k - 1) * l == k * l - l;
  }

  /** The page size the endpoint really serves. */
  function Served(l: nat): nat {
    if l > CHILDREN_PAGE_LIMIT_MAX then CHILDREN_PAGE_LIMIT_MAX else l
  }

  lemma OneMore(n: nat, l: nat)
    requires n > 0
    ensures n * l == (n - 1) * l + l
  {
  }

  /** A page within the offset clamp continues what came before it. */
  lemma PageContinues<T>(list: seq<T>, l: nat, n: nat, start: nat)
    requires n > 0 && start == (n - 1) * l && start <= MAX_OFFSET && Pages(list, l, n - 1) == Slice(list, 0, start)
    ensures Pages(list, l, n) == Slice(list, 0, start + Served(l))
  {
    assert Pages(list, l, n) == Pages(list, l, n - 1) + PageAt(list, Some(start), Some(l)).items;
  }

  lemma {:induction false} NarrowPagesTile<T>(list: seq<T>, l: nat, n: nat)
    requires 0 < l <= CHILDREN_PAGE_LIMIT_MAX && (n > 0 ==> (n - 1) * l <= MAX_OFFSET)
    ensures Pages(list, l, n) == Slice(list, 0, n * l)
  {
    if n > 0 {
      if n > 1 { OneMore(n - 1, l); }
      NarrowPagesTile(list, l, n - 1);
      OneMore(n, l);
      PageContinues(list, l, n, (n - 1) * l);
    }
  }

  /** While neither clamp bites twice, pages follow one another without gap or overlap. */
  lemma PagesTile<T>(list: seq<T>, l: nat, n: nat)
    requires l > 0 && (n <= 1 || l <= CHILDREN_PAGE_LIMIT_MAX) && (n > 0 ==> (n - 1) * l <= MAX_OFFSET)
    ensures Pages(list, l, n) == Slice(list, 0, n * Served(l))
  {
    if l <= CHILDREN_PAGE_LIMIT_MAX {
      NarrowPagesTile(list, l, n);
    } else if n == 1 {
      PageContinues(list, l, 1, 0);
    }
  }

  lemma PageCountMeans(n: nat, size: nat, l: nat)
    requires l > 0
    ensures n + 1 < PageCount(size, l) <==> n * l + l < size
  {
    PageCountIs(size, l);
    var k := PageCount(size, l);
    OneMore(n + 1, l);
    if n + 1 < k { ProductGrows(n + 1, k - 1, l); } else { ProductGrows(k, n + 1, l); }
  }

  /** A page within the offset clamp says that there is more exactly when it is not the last one or
      the limit clamp has cut it short. */
  lemma HasMoreIsExact<T>(list: seq<T>, l: nat, n: nat)
    requires l > 0 && n * l <= MAX_OFFSET
    ensures PageAt(list, Some(n * l), Some(l)).hasMore
       <==> n + 1 < PageCount(|list|, l) || n * l + CHILDREN_PAGE_LIMIT_MAX < |list|
  {
    PageCountMeans(n, |list|, l);
  }

  lemma ProductGrows(a: int, b: int, l: nat)
    requires a <= b
    ensures a * l <= b * l
  {
  }

  /** The first page asked for beyond the clamp. */
  lemma ClampedPage(l: nat, last: nat) returns (n: nat)
    requires l > 0 && last * l > MAX_OFFSET
    ensures 0 < n <= last && (n - 1) * l <= MAX_OFFSET < n * l <= last * l
  {
    n := MAX_OFFSET / l + 1;
    assert MAX_OFFSET == (n - 1) * l + MAX_OFFSET % l;
    OneMore(n, l);
    if last < n { ProductGrows(last, n - 1, l); }
    ProductGrows(n, last, l);
  }

  lemma {:induction false} PagesPrefix<T>(list: seq<T>, l: nat, m: nat, n: nat)
    requires m <= n
    ensures Pages(list, l, m) <= Pages(list, l, n)
  {
    if m < n { PagesPrefix(list, l, m, n - 1); }
  }

  /** Paging with any positive limit rebuilds a list of different children exactly when the limit is
      not cut down, or one served page holds them all, and the last page begins within the offset
      clamp. */
  lemma PagesTileIff<T>(list: seq<T>, l: nat)
    requires l > 0 && Distinct(list)
    ensures Pages(list, l, PageCount(|list|, l)) == list
       <==> || list == []
            || ((l <= CHILDREN_PAGE_LIMIT_MAX || |list| <= CHILDREN_PAGE_LIMIT_MAX)
                && (PageCount(|list|, l) - 1) * l <= MAX_OFFSET)
  {
    var k := PageCount(|list|, l);
    PageCountIs(|list|, l);
    if list == [] {
      PagesTile(list, l, k);
    } else if l > CHILDREN_PAGE_LIMIT_MAX {
      WidePages(list, l, k);
    } else if (k - 1) * l <= MAX_OFFSET {
      PagesTile(list, l, k);
    } else {
      PageBeyondClamp(list, l, k);
    }
  }

  /** With a limit above the maximum the second page skips what the first one left out. */
  lemma WidePages<T>(list: seq<T>, l: nat, k: nat)
    requires l > CHILDREN_PAGE_LIMIT_MAX && Distinct(list) && k > 0 && (k - 1) * l < |list| <= k * l
    ensures Pages(list, l, k) == list <==> |list| <= CHILDREN_PAGE_LIMIT_MAX
    ensures |list| <= CHILDREN_PAGE_LIMIT_MAX ==> k == 1
  {
    PagesTile(list, l, 1);
    if k > 1 {
      ProductGrows(1, k - 1, l);
      PagesPrefix(list, l, 2, k);
      var start := if l > MAX_OFFSET then MAX_OFFSET else l;
      assert PageAt(list, Some(l), Some(l)).items == Slice(list, start, CHILDREN_PAGE_LIMIT_MAX);
      assert Pages(list, l, 2) == Pages(list, l, 1) + PageAt(list, Some(l), Some(l)).items;
      assert Pages(list, l, 2)[CHILDREN_PAGE_LIMIT_MAX] == list[start];
      assert list[start] != list[CHILDREN_PAGE_LIMIT_MAX];
    }
  }

  lemma PageBeyondClamp<T>(list: seq<T>, l: nat, k: nat)
    requires 0 < l <= CHILDREN_PAGE_LIMIT_MAX && Distinct(list) && k > 0
    requires MAX_OFFSET < (k - 1) * l < |list|
    ensures Pages(list, l, k) != list
  {
    var n := ClampedPage(l, k - 1);
    NarrowPagesTile(list, l, n);
    ClampedPageDiffers(list, l, n, k, n * l);
  }

  lemma ClampedPageDiffers<T>(list: seq<T>, l: nat, n: nat, k: nat, start: nat)
    requires l > 0 && n < k && MAX_OFFSET < start < |list| && Distinct(list)
    requires Pages(list, l, n) == Slice(list, 0, start)
    requires Pages(list, l, n + 1) == Pages(list, l, n) + PageAt(list, Some(start), Some(l)).items
    ensures Pages(list, l, k) != list
  {
    PagesPrefix(list, l, n + 1, k);
    assert Pages(list, l, n + 1)[start] == list[MAX_OFFSET] != list[start];
  }

  /** On a longer list every page from the clamp on is the same and claims that there is more. */
  lemma ClampedPagesNeverEnd<T>(list: seq<T>, l: nat, offset: int)
    requires |list| > MAX_OFFSET + Served(l) && offset >= MAX_OFFSET
    ensures PageAt(list, Some(offset), Some(l)) == Page(list[MAX_OFFSET..MAX_OFFSET + Served(l)], true)
  {
  }

  /** Both clamps lose children: 500 of them in pages of 250, 5201 of them in pages of 200. */
  lemma ClampsLoseChildren<T>(few: seq<T>, many: seq<T>)
    requires Distinct(few) && |few| == 500 && Distinct(many) && |many| == 5201
    ensures Pages(few, 250, 2) != few && Pages(many, 200, 27) != many
  {
    assert PageCount(500, 250) == 2 && PageCount(5201, 200) == 27;
    PagesTileIff(few, 250);
    PagesTileIff(many, 200);
  }
}
