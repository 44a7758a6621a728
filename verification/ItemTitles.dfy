/** Post-processing of item titles along possibly cyclic "same as" links. */
module ItemTitles {

  type Item = string
  type Titles = map<Item, string>
  type SameAs = map<Item, Item>

  // The item reached after n links; a chain that has left the map stays where it is.
  function Hop(sameAs: SameAs, x: Item, n: nat): Item {
    if n == 0 then x else var y := Hop(sameAs, x, n - 1); if y in sameAs then sameAs[y] else y
  }

  ghost predicate OnChain(sameAs: SameAs, x: Item, y: Item) {
    exists n: nat :: Hop(sameAs, x, n) == y
  }

  // y is where the chain of x leaves the map.
  ghost predicate EndsAt(sameAs: SameAs, x: Item, y: Item) {
    OnChain(sameAs, x, y) && y !in sameAs
  }

  ghost predicate Leaves(sameAs: SameAs, x: Item) {
    exists y :: EndsAt(sameAs, x, y)
  }

  lemma {:induction false} HopAdd(sameAs: SameAs, x: Item, m: nat, n: nat)
    ensures Hop(sameAs, Hop(sameAs, x, m), n) == Hop(sameAs, x, m + n)
  {
    if n > 0 {
      HopAdd(sameAs, x, m, n - 1);
    }
  }

  lemma ChainTransitive(sameAs: SameAs, x: Item, y: Item, z: Item)
    requires OnChain(sameAs, x, y) && OnChain(sameAs, y, z)
    ensures OnChain(sameAs, x, z)
  {
    var m: nat :| Hop(sameAs, x, m) == y;
    var n: nat :| Hop(sameAs, y, n) == z;
    HopAdd(sameAs, x, m, n);
  }

  lemma {:induction false} Stays(sameAs: SameAs, x: Item, m: nat, n: nat)
    requires m <= n && Hop(sameAs, x, m) !in sameAs
    ensures Hop(sameAs, x, n) == Hop(sameAs, x, m)
  {
    if m < n {
      Stays(sameAs, x, m, n - 1);
    }
  }

  lemma EndUnique(sameAs: SameAs, x: Item, y: Item, z: Item)
    requires EndsAt(sameAs, x, y) && EndsAt(sameAs, x, z)
    ensures y == z
  {
    var m: nat :| Hop(sameAs, x, m) == y;
    var n: nat :| Hop(sameAs, x, n) == z;
    if m <= n {
      Stays(sameAs, x, m, n);
    } else {
      Stays(sameAs, x, n, m);
    }
  }

  // A chain that comes back to an item it has visited never leaves the map.
  lemma {:induction false} Returns(sameAs: SameAs, x: Item, i: nat, j: nat, n: nat)
    requires j <= i && Hop(sameAs, x, i + 1) == Hop(sameAs, x, j)
    requires forall k: nat :: k <= i ==> Hop(sameAs, x, k) in sameAs
    ensures exists k: nat :: k <= i && Hop(sameAs, x, n) == Hop(sameAs, x, k)
  {
    if n > 0 {
      Returns(sameAs, x, i, j, n - 1);
      var k: nat :| k <= i && Hop(sameAs, x, n - 1) == Hop(sameAs, x, k);
      assert Hop(sameAs, x, n) == Hop(sameAs, x, k + 1);
    }
  }

  lemma CycleNeverLeaves(sameAs: SameAs, x: Item, i: nat, j: nat)
    requires j <= i && Hop(sameAs, x, i + 1) == Hop(sameAs, x, j)
    requires forall k: nat :: k <= i ==> Hop(sameAs, x, k) in sameAs
    ensures !Leaves(sameAs, x)
  {
    forall y | OnChain(sameAs, x, y) ensures y in sameAs {
      var n: nat :| Hop(sameAs, x, n) == y;
      Returns(sameAs, x, i, j, n);
    }
  }

  // The items visited in i + 1 steps are the first on the chain, all of them in the map but the last.
  ghost predicate Visited(sameAs: SameAs, item: Item, visited: set<Item>, i: nat) {
    && (forall y :: y in visited ==> exists k: nat :: k <= i && Hop(sameAs, item, k) == y)
    && (forall k: nat :: k < i ==> Hop(sameAs, item, k) in sameAs)
    && visited <= {item} + sameAs.Values
  }

  lemma VisitNext(sameAs: SameAs, item: Item, visited: set<Item>, i: nat)
    requires Visited(sameAs, item, visited, i) && Hop(sameAs, item, i) in sameAs
    ensures Hop(sameAs, item, i + 1) == sameAs[Hop(sameAs, item, i)]
    ensures Visited(sameAs, item, visited + {Hop(sameAs, item, i + 1)}, i + 1)
  {
    var next := Hop(sameAs, item, i + 1);
    forall y | y in visited + {next} ensures exists k: nat :: k <= i + 1 && Hop(sameAs, item, k) == y {
      if y in visited {
        var k: nat :| k <= i && Hop(sameAs, item, k) == y;
        assert k <= i + 1;
      }
    }
  }

  lemma VisitReturns(sameAs: SameAs, item: Item, visited: set<Item>, i: nat)
    requires Visited(sameAs, item, visited, i) && Hop(sameAs, item, i) in sameAs
    requires Hop(sameAs, item, i + 1) in visited
    ensures !Leaves(sameAs, item)
  {
    var j: nat :| j <= i && Hop(sameAs, item, j) == Hop(sameAs, item, i + 1);
    CycleNeverLeaves(sameAs, item, i, j);
  }

  // Follows the links of `item` until they leave the map or come back to a visited item.
  method FindTarget(sameAs: SameAs, item: Item) returns (target: Item)
    ensures OnChain(sameAs, item, target)
    ensures Leaves(sameAs, item) <==> target !in sameAs
  {
    var visited := {item};
    target := item;
    ghost var i: nat := 0;
    while target in sameAs
      invariant target == Hop(sameAs, item, i) && Visited(sameAs, item, visited, i)
      decreases |{item} + sameAs.Values| - |visited|
    {
      VisitNext(sameAs, item, visited, i);
      var next := sameAs[target];
      if next in visited {
        VisitReturns(sameAs, item, visited, i);
        return;
      }
      Grows(visited, next, {item} + sameAs.Values);
      visited, target, i := visited + {next}, next, i + 1;
    }
    assert EndsAt(sameAs, item, target);
  }

  lemma Grows(visited: set<Item>, next: Item, all: set<Item>)
    requires visited <= all && next in all && next !in visited
    ensures |visited| < |visited + {next}| <= |all|
  {
    Subset(visited + {next}, all);
  }

  lemma {:induction false} Subset(a: set<Item>, b: set<Item>)
    requires a <= b
    ensures |a| <= |b|
  {
    if a != {} {
      var x :| x in a;
      Subset(a - {x}, b - {x});
    }
  }

  /******* What post-processing promises *******/

  ghost predicate SameTitle(a: Titles, x: Item, b: Titles, y: Item) {
    (x in a <==> y in b) && (x in a ==> a[x] == b[y])
  }

  // Every title there is was the original title of some item on the chain.
  ghost predicate FromChain(sameAs: SameAs, before: Titles, after: Titles, x: Item) {
    x in after ==> exists y :: OnChain(sameAs, x, y) && y in before && after[x] == before[y]
  }

  // An item whose chain ends at y has the original title of y if there is one, else its own.
  ghost predicate Settled(sameAs: SameAs, before: Titles, after: Titles, x: Item) {
    forall y :: EndsAt(sameAs, x, y) ==> SameTitle(after, x, before, if y in before then y else x)
  }

  ghost predicate Resolved(sameAs: SameAs, before: Titles, after: Titles) {
    && (forall x :: x in before ==> x in after)
    && (forall x :: FromChain(sameAs, before, after, x) && Settled(sameAs, before, after, x))
  }

  lemma OwnChain(sameAs: SameAs, x: Item)
    ensures OnChain(sameAs, x, x)
  {
    assert Hop(sameAs, x, 0) == x;
  }

  // Whatever the order in which the items are taken.
  method PostProcess(sameAs: SameAs, titles: Titles) returns (result: Titles)
    ensures Resolved(sameAs, titles, result)
  {
    result := titles;
    var toProcess := sameAs.Keys;
    forall x ensures FromChain(sameAs, titles, titles, x) {
      OwnChain(sameAs, x);
    }
    while toProcess != {}
      invariant toProcess <= sameAs.Keys
      invariant forall x :: x in titles ==> x in result
      invariant forall x :: x in toProcess || x !in sameAs ==> SameTitle(result, x, titles, x)
      invariant forall x :: x in sameAs && x !in toProcess ==> Settled(sameAs, titles, result, x)
      invariant forall x :: FromChain(sameAs, titles, result, x)
      decreases toProcess
    {
      var item :| item in toProcess;
      toProcess := toProcess - {item};
      var target := FindTarget(sameAs, item);
      ghost var previous := result;
      if target in result {
        result := result[item := result[target]];
      }
      Assigned(sameAs, titles, previous, result, item, target);
      forall x ensures FromChain(sameAs, titles, result, x) {
        if x != item {
          assert FromChain(sameAs, titles, previous, x) && SameTitle(result, x, previous, x);
        }
      }
    }
    forall x ensures Settled(sameAs, titles, result, x) {
      if x !in sameAs {
        OutsideSettled(sameAs, titles, result, x);
      }
    }
  }

  lemma OutsideSettled(sameAs: SameAs, titles: Titles, result: Titles, x: Item)
    requires x !in sameAs && SameTitle(result, x, titles, x)
    ensures Settled(sameAs, titles, result, x)
  {
    OwnChain(sameAs, x);
    forall y | EndsAt(sameAs, x, y) ensures y == x {
      EndUnique(sameAs, x, x, y);
    }
  }

  // Copying the title of the target to the item.
  lemma Assigned(sameAs: SameAs, titles: Titles, previous: Titles, result: Titles, item: Item, target: Item)
    requires item in sameAs && OnChain(sameAs, item, target)
    requires Leaves(sameAs, item) <==> target !in sameAs
    requires SameTitle(previous, item, titles, item)
    requires target !in sameAs ==> SameTitle(previous, target, titles, target)
    requires result == if target in previous then previous[item := previous[target]] else previous
    requires FromChain(sameAs, titles, previous, item) && FromChain(sameAs, titles, previous, target)
    ensures Settled(sameAs, titles, result, item) && FromChain(sameAs, titles, result, item)
  {
    forall y | EndsAt(sameAs, item, y) ensures y == target {
      assert Leaves(sameAs, item);
      EndUnique(sameAs, item, y, target);
    }
    if target in previous {
      var y :| OnChain(sameAs, target, y) && y in titles && previous[target] == titles[y];
      ChainTransitive(sameAs, item, target, y);
    }
  }

  // The promise determines the title of every item whose chain leaves the map.
  lemma OrderIrrelevant(sameAs: SameAs, before: Titles, one: Titles, two: Titles, x: Item)
    requires Resolved(sameAs, before, one) && Resolved(sameAs, before, two) && Leaves(sameAs, x)
    ensures SameTitle(one, x, two, x)
  {
    var y :| EndsAt(sameAs, x, y);
    assert Settled(sameAs, before, one, x) && Settled(sameAs, before, two, x);
  }
}
