/**
 * The objects of `MongoDB_Data_Input/DrawSimul.py`: `PointCatNode`, the
 * doubly linked `PointCatLinkList` of them, and the `DrawSimul` whose
 * `run_drawing` walks and decrements that list. Each class keeps the ghost
 * sequence of its nodes in list order; the drawing is proved to compute
 * exactly the value-level drawing of module CategoryDraw.
 */
module PointCatList {
  import opened Results
  import opened PointWeight
  import opened Sums
  import opened CategoryDraw

  /** One point category: its applicant count and their total weight. */
  class PointCatNode {
    var prev: PointCatNode?
    var next: PointCatNode?
    var apps: int
    const pointVal: int
    var adjApps: int

    /** `PointCatNode(point_val, apps)`: unlinked, weighing `apps` times the marginal weight. */
    constructor (pointVal: int, apps: int)
      ensures this.pointVal == pointVal && this.apps == apps
      ensures adjApps == apps * Marginal(pointVal)
      ensures prev == null && next == null
    {
      this.pointVal := pointVal;
      this.apps := apps;
      if pointVal == 0 {
        this.adjApps := apps;
      } else {
        this.adjApps := pointVal * pointVal * apps;
      }
      prev := null;
      next := null;
    }
  }

  /** Position of a node in a sequence of nodes: its first occurrence. */
  ghost function IndexOf(ns: seq<PointCatNode>, n: PointCatNode): (k: nat)
    requires n in ns
    ensures k < |ns| && ns[k] == n
    ensures forall j :: 0 <= j < k ==> ns[j] != n
  {
    if ns[0] == n then 0 else 1 + IndexOf(ns[1..], n)
  }

  /** The outcome of `delete_node`: it returns normally or raises AttributeError. */
  datatype DeleteError = AttributeError

  class PointCatLinkList {
    var head: PointCatNode?
    /** The nodes reached from `head` along `next`, in that order. */
    ghost var nodes: seq<PointCatNode>
    /** What those nodes hold, head first. */
    ghost var cats: seq<Cat>

    /** The nodes as a set, for frames. */
    ghost function NodeSet(): set<PointCatNode>
      reads this`nodes
    {
      set n | n in nodes
    }

    /** `head` starts the chain, and `next` and `prev` link neighbours up to the tail. */
    ghost predicate Linked()
      reads this`head, this`nodes, NodeSet()`prev, NodeSet()`next
    {
      LinkedBut(-1)
    }

    /** `Linked`, except perhaps for the two links between nodes `j` and `j + 1`. */
    ghost predicate LinkedBut(j: int)
      reads this`head, this`nodes, NodeSet()`prev, NodeSet()`next
    {
      && (nodes == [] ==> head == null)
      && (nodes != [] ==> head == nodes[0] && nodes[0].prev == null && nodes[|nodes| - 1].next == null)
      && (forall i {:trigger nodes[i].next} :: 0 <= i < |nodes| - 1 && i != j ==> nodes[i].next == nodes[i + 1])
      && (forall i {:trigger nodes[i].prev} :: 1 <= i < |nodes| && i != j + 1 ==> nodes[i].prev == nodes[i - 1])
    }

    /** `cats` mirrors the nodes' point values, counts and weights. */
    ghost predicate Mirrored()
      reads this`nodes, this`cats, NodeSet()`apps, NodeSet()`adjApps
    {
      && |cats| == |nodes|
      && (forall i :: 0 <= i < |nodes| ==> cats[i] == Cat(nodes[i].pointVal, nodes[i].apps, nodes[i].adjApps))
    }

    ghost predicate Valid()
      reads this, NodeSet()
    {
      Linked() && Mirrored()
    }

    /**
     * A linked chain never repeats a node: were node `i` also node `j > i`,
     * following `next` from both would reach the tail from `j` while `i`'s
     * copy still had a successor.
     */
    lemma {:induction false} Apart(i: nat, j: nat)
      requires Linked() && i < j < |nodes|
      ensures nodes[i] != nodes[j]
      decreases |nodes| - j
    {
      if j < |nodes| - 1 {
        Apart(i + 1, j + 1);
        assert nodes[i].next == nodes[i + 1] && nodes[j].next == nodes[j + 1];
      } else {
        assert nodes[i].next == nodes[i + 1];
      }
    }

    /** The node at `k` occurs nowhere else in the chain. */
    lemma Unrepeated(k: nat)
      requires Linked() && k < |nodes|
      ensures forall i :: 0 <= i < |nodes| && i != k ==> nodes[i] != nodes[k]
    {
      forall i | 0 <= i < |nodes| && i != k ensures nodes[i] != nodes[k] {
        if i < k {
          Apart(i, k);
        } else {
          Apart(k, i);
        }
      }
    }

    /** `PointCatLinkList()`: the empty list. */
    constructor ()
      ensures Valid() && nodes == [] && cats == []
    {
      head := null;
      nodes := [];
      cats := [];
    }

    /** `add_node`: the new node becomes the head and the old head links back to it. */
    method AddNode(node: PointCatNode)
      requires Valid()
      requires node !in nodes && node.prev == null && node.next == null
      modifies this`head, this`nodes, this`cats, node`next, NodeSet()`prev
      ensures Valid()
      ensures nodes == [node] + old(nodes)
      ensures cats == [Cat(node.pointVal, node.apps, node.adjApps)] + old(cats)
      ensures node.apps == old(node.apps) && node.adjApps == old(node.adjApps)
    {
      ghost var ns := nodes;
      if nodes != [] {
        Unrepeated(0);
      }
      nodes := [node] + nodes;
      cats := [Cat(node.pointVal, node.apps, node.adjApps)] + cats;
      assert Mirrored();
      if head == null {
        head := node;
      } else {
        var oldHead := head;
        head := node;
        forall i | 1 <= i < |nodes| - 1 ensures nodes[i].next == nodes[i + 1] {
          assert nodes[i] == ns[i - 1];
        }
        forall i | 2 <= i < |nodes| ensures nodes[i].prev == nodes[i - 1] {
          assert nodes[i] == ns[i - 1];
        }
        Join(head, oldHead, 0);
      }
    }

    /**
     * `delete_node` as written. Deleting the head (no `prev`) re-assigns the
     * head to that very node, so the list is unchanged. Deleting a middle node
     * unlinks it. Deleting the tail first unlinks it from its predecessor and
     * then dereferences the missing successor, which raises.
     */
    method DeleteNode(node: PointCatNode) returns (r: Result<(), DeleteError>)
      requires Valid() && node in nodes
      modifies this`head, this`nodes, this`cats, NodeSet()`prev, NodeSet()`next
      ensures Valid()
      ensures var k := IndexOf(old(nodes), node);
        && (k == 0 ==> r.Ok? && nodes == old(nodes) && cats == old(cats))
        && (0 < k < |old(nodes)| - 1 ==> r.Ok? && nodes == old(nodes[..k] + nodes[k + 1..]) && cats == old(cats[..k] + cats[k + 1..]))
        && (0 < k == |old(nodes)| - 1 ==> r == Err(AttributeError) && nodes == old(nodes[..k]) && cats == old(cats[..k]))
    {
      ghost var k := IndexOf(nodes, node);
      assert k > 0 ==> node.prev == nodes[k - 1];
      assert k < |nodes| - 1 ==> node.next == nodes[k + 1];
      if node.prev == null {
        head := node;
        node.prev := null;
        r := Ok(());
      } else if node.next == null {
        UnlinkTail(node, k);
        r := Err(AttributeError);
      } else {
        UnlinkMiddle(node, k);
        r := Ok(());
      }
    }

    /**
     * `delete_node` as evidently intended: the node leaves the list wherever
     * it stands, the head moving to its successor when it was the head.
     */
    method DeleteNodeFixed(node: PointCatNode)
      requires Valid() && node in nodes
      modifies this`head, this`nodes, this`cats, NodeSet()`prev, NodeSet()`next
      ensures Valid()
      ensures var k := IndexOf(old(nodes), node);
        && nodes == old(nodes[..k] + nodes[k + 1..])
        && cats == old(cats[..k] + cats[k + 1..])
    {
      ghost var k := IndexOf(nodes, node);
      assert k > 0 ==> node.prev == nodes[k - 1];
      assert k < |nodes| - 1 ==> node.next == nodes[k + 1];
      if node.prev == null {
        assert nodes[..k] + nodes[k + 1..] == nodes[1..];
        assert cats[..k] + cats[k + 1..] == cats[1..];
        UnlinkHead();
      } else if node.next == null {
        assert nodes[..k] + nodes[k + 1..] == nodes[..k];
        assert cats[..k] + cats[k + 1..] == cats[..k];
        UnlinkTail(node, k);
      } else {
        UnlinkMiddle(node, k);
      }
    }

    /** Removes the head: its successor, if any, becomes the head. */
    method UnlinkHead()
      requires Valid() && nodes != []
      modifies this`head, this`nodes, this`cats, NodeSet()`prev, NodeSet()`next
      ensures Valid()
      ensures nodes == old(nodes[1..]) && cats == old(cats[1..])
    {
      if |nodes| > 1 {
        Unrepeated(1);
      }
      var nextNode := head.next;
      assert |nodes| > 1 ==> nextNode == nodes[1];
      head := nextNode;
      if nextNode != null {
        nextNode.prev := null;
      }
      ghost var ns := nodes;
      nodes := nodes[1..];
      cats := cats[1..];
      forall i | 0 <= i < |nodes| - 1 ensures nodes[i].next == nodes[i + 1] {
        assert nodes[i] == ns[i + 1];
      }
    }

    /** Removes the tail `k > 0`: its predecessor becomes the tail. */
    method UnlinkTail(node: PointCatNode, ghost k: nat)
      requires Valid() && 0 < k == |nodes| - 1 && node == nodes[k]
      modifies this`head, this`nodes, this`cats, NodeSet()`prev, NodeSet()`next
      ensures Valid()
      ensures nodes == old(nodes[..k]) && cats == old(cats[..k])
    {
      Unrepeated(k - 1);
      var prevNode := node.prev;
      assert prevNode == nodes[k - 1];
      prevNode.next := null;
      nodes := nodes[..k];
      cats := cats[..k];
    }

    /** Splices out node `k`, which has both neighbours, by linking them to each other. */
    method UnlinkMiddle(node: PointCatNode, ghost k: nat)
      requires Valid() && 0 < k < |nodes| - 1 && node == nodes[k]
      modifies this`head, this`nodes, this`cats, NodeSet()`prev, NodeSet()`next
      ensures Valid()
      ensures nodes == old(nodes[..k] + nodes[k + 1..])
      ensures cats == old(cats[..k] + cats[k + 1..])
    {
      ghost var ns := nodes;
      Unrepeated(k - 1);
      Unrepeated(k + 1);
      assert node.prev == ns[k - 1] && node.next == ns[k + 1];
      var prevNode, nextNode := node.prev, node.next;
      nodes := nodes[..k] + nodes[k + 1..];
      cats := cats[..k] + cats[k + 1..];
      assert Mirrored();
      forall i | 0 <= i < |nodes| - 1 && i != k - 1 ensures nodes[i].next == nodes[i + 1] {
        if i < k - 1 {
          assert nodes[i] == ns[i] && nodes[i + 1] == ns[i + 1];
        } else {
          assert nodes[i] == ns[i + 1];
        }
      }
      forall i | 1 <= i < |nodes| && i != k ensures nodes[i].prev == nodes[i - 1] {
        if i < k {
          assert nodes[i] == ns[i] && nodes[i - 1] == ns[i - 1];
        } else {
          assert nodes[i] == ns[i + 1];
        }
      }
      Join(prevNode, nextNode, k - 1);
    }

    /** Links nodes `j` and `j + 1`, the only pair not yet linked to each other. */
    method Join(prevNode: PointCatNode, nextNode: PointCatNode, ghost j: nat)
      requires LinkedBut(j) && j + 1 < |nodes| && prevNode == nodes[j] && nextNode == nodes[j + 1]
      requires forall i :: 0 <= i < |nodes| && i != j ==> nodes[i] != prevNode
      requires forall i :: 0 <= i < |nodes| && i != j + 1 ==> nodes[i] != nextNode
      modifies prevNode`next, nextNode`prev
      ensures Linked()
    {
      prevNode.next := nextNode;
      nextNode.prev := prevNode;
    }

    /** The walk at the start of `run_drawing`: `num_apps` is the sum of all `adj_apps`. */
    method SumAdjApps() returns (total: int)
      requires Valid()
      ensures total == SumWeights(cats)
    {
      total := 0;
      var curr := head;
      ghost var k := 0;
      while curr != null
        invariant 0 <= k <= |nodes|
        invariant k < |nodes| ==> curr == nodes[k]
        invariant k == |nodes| ==> curr == null
        invariant total == Prefix(cats, k)
        decreases |nodes| - k
      {
        assert cats[..k + 1][..k] == cats[..k];
        total := total + curr.adjApps;
        curr := curr.next;
        k := k + 1;
      }
    }

    /**
     * The scan of `run_drawing` for `rand_num` in `[1, num_apps]`: it walks
     * from the head adding up `adj_apps` and stops at the first node whose
     * running total reaches `rand_num`, which is the node `Select` names and
     * never lies past the tail.
     */
    method FindNode(randNum: int) returns (node: PointCatNode, ghost k: nat)
      requires Valid() && 1 <= randNum <= SumWeights(cats)
      ensures k == Select(cats, randNum) && k < |nodes| && node == nodes[k]
    {
      assert cats != [];
      assert head == nodes[0];
      node := head;
      var appsUpTo := node.adjApps;
      k := 0;
      assert cats[..1][..0] == [];
      while appsUpTo < randNum
        invariant k < |nodes| && node == nodes[k]
        invariant appsUpTo == Through(cats, k)
        invariant forall i :: 0 <= i < k ==> Through(cats, i) < randNum
        decreases |nodes| - k
      {
        assert k + 1 < |nodes|;
        assert Prefix(cats, k + 1) == Through(cats, k);
        assert node.next == nodes[k + 1];
        node := node.next;
        appsUpTo := appsUpTo + node.adjApps;
        k := k + 1;
      }
      SelectUnique(cats, randNum, k);
    }

    /**
     * The decrement of `run_drawing`: the drawn node loses one applicant and
     * one marginal weight (1 at 0 points, `point_val ** 2` otherwise), which
     * is returned so that `num_apps` can lose it too; no other node changes.
     */
    method TakeApplicant(node: PointCatNode, ghost k: nat) returns (taken: int)
      requires Valid() && k < |nodes| && node == nodes[k]
      modifies this`cats, node`apps, node`adjApps
      ensures Valid()
      ensures taken == Marginal(node.pointVal)
      ensures cats == old(cats[k := Taken(cats[k])])
    {
      Unrepeated(k);
      node.apps := node.apps - 1;
      if node.pointVal == 0 {
        node.adjApps := node.adjApps - 1;
        taken := 1;
      } else {
        node.adjApps := node.adjApps - node.pointVal * node.pointVal;
        taken := node.pointVal * node.pointVal;
      }
      cats := cats[k := Taken(cats[k])];
    }
  }

  /**
   * `init_ll`: one node per entry of `expected_apps`, each prepended in turn,
   * so the list holds exactly `Table(expected_apps)`, in descending point value.
   */
  method InitLinkedList(expectedApps: seq<int>) returns (ll: PointCatLinkList)
    ensures fresh(ll) && ll.Valid()
    ensures forall n :: n in ll.nodes ==> fresh(n)
    ensures ll.cats == Table(expectedApps)
  {
    ll := new PointCatLinkList();
    var i := 0;
    while i < |expectedApps|
      invariant 0 <= i <= |expectedApps|
      invariant fresh(ll) && ll.Valid()
      invariant forall n :: n in ll.nodes ==> fresh(n)
      invariant ll.cats == Table(expectedApps[..i])
    {
      assert expectedApps[..i + 1] == expectedApps[..i] + [expectedApps[i]];
      TableSnoc(expectedApps[..i], expectedApps[i]);
      var node := new PointCatNode(i, expectedApps[i]);
      ll.AddNode(node);
      i := i + 1;
    }
    assert expectedApps[..i] == expectedApps;
  }

  /** `DrawSimul` of the category-table variant. */
  class DrawSimul {
    var tag: string
    var numTags: int
    var expectedApps: seq<int>
    var appsLl: PointCatLinkList
    var dwgResults: seq<int>

    /** The list is well linked, one node per category, weights in step with counts. */
    ghost predicate Valid()
      reads this`appsLl, this`expectedApps, appsLl, appsLl.NodeSet()
    {
      && appsLl.Valid()
      && |appsLl.nodes| == |expectedApps|
      && Descending(appsLl.cats)
      && WeightsAgree(appsLl.cats)
    }

    /** `DrawSimul(expected_apps, tag, num_tags)`: builds the list, no results yet. */
    constructor (expectedApps: seq<int>, tag: string, numTags: int)
      ensures Valid()
      ensures this.expectedApps == expectedApps && this.tag == tag && this.numTags == numTags
      ensures appsLl.cats == Table(expectedApps) && dwgResults == []
      ensures fresh(appsLl) && forall n :: n in appsLl.nodes ==> fresh(n)
    {
      this.tag := tag;
      this.numTags := numTags;
      this.expectedApps := expectedApps;
      var ll := InitLinkedList(expectedApps);
      this.appsLl := ll;
      this.dwgResults := [];
    }

    /**
     * One pass of the drawing loop of `run_drawing` for `rand_num` in
     * `[1, num_apps]`: find the node, count the tag for its point value,
     * take one applicant from it, and return the decreased `num_apps`. The
     * new state is exactly `Draw` of the old one.
     */
    method DrawOnce(randNum: int, numApps: int, ghost s: DrawState) returns (remaining: int)
      requires Valid() && s == DrawState(appsLl.cats, dwgResults, numApps)
      requires Consistent(s) && 1 <= randNum <= numApps
      modifies this`dwgResults, appsLl`cats, appsLl.NodeSet()`apps, appsLl.NodeSet()`adjApps
      ensures Valid()
      ensures DrawState(appsLl.cats, dwgResults, remaining) == Draw(s, randNum)
    {
      var node, k := appsLl.FindNode(randNum);
      DrawAt(s, randNum, k);
      dwgResults := dwgResults[node.pointVal := dwgResults[node.pointVal] + 1];
      var taken := appsLl.TakeApplicant(node, k);
      remaining := numApps - taken;
    }

    /**
     * `run_drawing`, with `rands[t]` the number `randint(1, num_apps)` returns
     * on draw `t`. It does exactly what `Steps` says: on success it returns
     * (and keeps) the result vector and leaves the list holding the drawn-down
     * counts; when `num_apps` reaches 0 with tags left, `randint` raises.
     */
    method RunDrawing(rands: seq<int>) returns (r: Result<seq<int>, DrawError>)
      requires Valid() && |expectedApps| <= NumCategories
      requires |rands| == if numTags < 0 then 0 else numTags
      requires RandsFit(Start(appsLl.cats), rands)
      modifies this`dwgResults, appsLl`cats, appsLl.NodeSet()`apps, appsLl.NodeSet()`adjApps
      ensures Valid()
      ensures var out := Steps(Start(old(appsLl.cats)), rands);
        && (out.Ok? ==> r == Ok(out.value.results) && dwgResults == out.value.results && appsLl.cats == out.value.cats)
        && (out.Err? ==> r == Err(out.error))
    {
      dwgResults := Zeros(NumCategories);
      var numApps := appsLl.SumAdjApps();
      r := DrawTags(rands, numApps);
    }

    /** The `for _ in range(num_tags)` loop of `run_drawing`, from `num_apps` on. */
    method DrawTags(rands: seq<int>, numApps: int) returns (r: Result<seq<int>, DrawError>)
      requires Valid() && Consistent(DrawState(appsLl.cats, dwgResults, numApps))
      requires |rands| == if numTags < 0 then 0 else numTags
      requires RandsFit(DrawState(appsLl.cats, dwgResults, numApps), rands)
      modifies this`dwgResults, appsLl`cats, appsLl.NodeSet()`apps, appsLl.NodeSet()`adjApps
      ensures Valid()
      ensures var out := Steps(DrawState(old(appsLl.cats), old(dwgResults), numApps), rands);
        && (out.Ok? ==> r == Ok(out.value.results) && dwgResults == out.value.results && appsLl.cats == out.value.cats)
        && (out.Err? ==> r == Err(out.error))
    {
      ghost var st := DrawState(appsLl.cats, dwgResults, numApps);
      ghost var out := Steps(st, rands);
      ghost var rest := rands;
      var remaining := numApps;
      var t := 0;
      while t < numTags
        invariant 0 <= t <= |rands| && rest == rands[t..]
        invariant Valid() && st == DrawState(appsLl.cats, dwgResults, remaining)
        invariant Consistent(st) && RandsFit(st, rest) && out == Steps(st, rest)
      {
        if remaining < 1 {
          return Err(EmptyRange);
        }
        StepOnce(st, rest);
        assert rands[t] == rest[0];
        remaining := DrawOnce(rands[t], remaining, st);
        st := Draw(st, rest[0]);
        rest := rest[1..];
        t := t + 1;
      }
      r := Ok(dwgResults);
    }
  }
}
