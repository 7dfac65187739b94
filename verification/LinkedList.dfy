/** The intrusive doubly linked list, on the heap, against sequences of nodes. */
module LinkedList {
  /** The neighbours of position `i`, or null at the ends. */
  function Before(nodes: seq<Linked>, i: nat): Linked?
    requires i < |nodes|
  {
    if i == 0 then null else nodes[i - 1]
  }

  function Behind(nodes: seq<Linked>, i: nat): Linked?
    requires i < |nodes|
  {
    if i == |nodes| - 1 then null else nodes[i + 1]
  }

  ghost predicate AllDistinct(nodes: seq<Linked>) {
    forall i, j | 0 <= i < j < |nodes| :: nodes[i] != nodes[j]
  }

  /** The nodes are linked in this order, forwards and backwards, and to nothing else. */
  ghost predicate Chain(nodes: seq<Linked>)
    reads nodes
  {
    && nodes != [] && AllDistinct(nodes)
    && forall i | 0 <= i < |nodes| :: InPlace(nodes, i)
  }

  /** The sequence without its element at `i`. */
  function Omit<T>(s: seq<T>, i: nat): (r: seq<T>)
    requires i < |s|
    ensures |r| == |s| - 1 && forall k | 0 <= k < |r| :: r[k] == if k < i then s[k] else s[k + 1]
  {
    s[..i] + s[i + 1..]
  }

  function Insert<T>(s: seq<T>, i: nat, x: T): (r: seq<T>)
    requires i <= |s|
    ensures |r| == |s| + 1 && r[i] == x && forall k | 0 <= k < |r| && k != i :: r[k] == if k < i then s[k] else s[k - 1]
  {
    s[..i] + [x] + s[i..]
  }

  /** Position `i` has its neighbours. */
  predicate InPlace(nodes: seq<Linked>, i: nat)
    requires i < |nodes|
    reads nodes
  {
    nodes[i].prev == Before(nodes, i) && nodes[i].next == Behind(nodes, i)
  }

  lemma InsertDistinct(nodes: seq<Linked>, i: nat, x: Linked)
    requires AllDistinct(nodes) && i <= |nodes| && x !in nodes
    ensures AllDistinct(Insert(nodes, i, x))
  {
  }

  lemma OmitDistinct(nodes: seq<Linked>, i: nat)
    requires AllDistinct(nodes) && i < |nodes|
    ensures AllDistinct(Omit(nodes, i)) && nodes[i] !in Omit(nodes, i)
  {
  }

  /** `BaseLinked`. */
  class Linked {
    var prev: Linked?
    var next: Linked?

    constructor ()
      ensures Alone()
    {
      prev, next := null, null;
    }

    predicate Alone()
      reads this
    {
      prev == null && next == null
    }

    /** Node `bx` follows this one. */
    method LinkBack(bx: Linked, ghost chain: seq<Linked>, ghost i: nat)
      requires Chain(chain) && i < |chain| && chain[i] == this && bx.Alone() && bx !in chain
      modifies this, bx, next
      ensures Chain(Insert(chain, i + 1, bx))
    {
      assert InPlace(chain, i) && (i + 1 < |chain| ==> InPlace(chain, i + 1));
      var oldNext := next;
      this.next := bx;
      bx.next := oldNext;
      bx.prev := this;
      if oldNext != null {
        oldNext.prev := bx;
      }
      InsertDistinct(chain, i + 1, bx);
      ghost var r := Insert(chain, i + 1, bx);
      forall k | 0 <= k < |r| ensures InPlace(r, k) {
        assert k < |chain| ==> old(InPlace(chain, k));
        assert k > 0 ==> old(InPlace(chain, k - 1));
      }
    }

    /** Node `bx` precedes this one. */
    method LinkFront(bx: Linked, ghost chain: seq<Linked>, ghost i: nat)
      requires Chain(chain) && i < |chain| && chain[i] == this && bx.Alone() && bx !in chain
      modifies this, bx, prev
      ensures Chain(Insert(chain, i, bx))
    {
      assert InPlace(chain, i) && (i > 0 ==> InPlace(chain, i - 1));
      var oldPrev := prev;
      this.prev := bx;
      bx.prev := oldPrev;
      bx.next := this;
      if oldPrev != null {
        oldPrev.next := bx;
      }
      InsertDistinct(chain, i, bx);
      ghost var r := Insert(chain, i, bx);
      forall k | 0 <= k < |r| ensures InPlace(r, k) {
        assert k < |chain| ==> old(InPlace(chain, k));
        assert k > 0 ==> old(InPlace(chain, k - 1));
      }
    }

    /** Leave the chain, whichever it is; `ok` says whether there was one to leave. */
    method UnlinkThis(ghost chain: seq<Linked>, ghost i: nat) returns (ok: bool)
      requires Chain(chain) && i < |chain| && chain[i] == this
      modifies this, prev, next
      ensures ok == (|chain| > 1) && Alone()
      ensures ok ==> Chain(Omit(chain, i))
    {
      assert InPlace(chain, i) && (i > 0 ==> InPlace(chain, i - 1)) && (i + 1 < |chain| ==> InPlace(chain, i + 1));
      var oldPrev := prev;
      var oldNext := next;
      if oldPrev != null {
        oldPrev.next := oldNext;
      }
      if oldNext != null {
        oldNext.prev := oldPrev;
      }
      ok := prev != null || next != null;
      prev, next := null, null;
      OmitDistinct(chain, i);
      ghost var r := Omit(chain, i);
      forall k | 0 <= k < |r| ensures InPlace(r, k) {
        assert old(InPlace(chain, k)) && old(InPlace(chain, k + 1));
      }
    }

    /** Remove the node that follows this one. */
    method UnlinkBack(ghost chain: seq<Linked>, ghost i: nat) returns (x: Linked?)
      requires Chain(chain) && i < |chain| && chain[i] == this
      modifies this, next, if next == null then {} else {next.next}
      ensures x == if i + 1 < |chain| then chain[i + 1] else null
      ensures x == null ==> unchanged(this)
      ensures x != null ==> x.Alone() && Chain(Omit(chain, i + 1))
    {
      assert InPlace(chain, i) && (i + 1 < |chain| ==> InPlace(chain, i + 1)) && (i + 2 < |chain| ==> InPlace(chain, i + 2));
      if next == null {
        return null;
      }
      x := next;
      var newNext := x.next;
      this.next := newNext;
      if newNext != null {
        newNext.prev := this;
      }
      x.prev, x.next := null, null;
      OmitDistinct(chain, i + 1);
      ghost var r := Omit(chain, i + 1);
      forall k | 0 <= k < |r| ensures InPlace(r, k) {
        assert old(InPlace(chain, k)) && old(InPlace(chain, k + 1));
      }
    }

    /** Remove the node that precedes this one. */
    method UnlinkFront(ghost chain: seq<Linked>, ghost i: nat) returns (x: Linked?)
      requires Chain(chain) && i < |chain| && chain[i] == this
      modifies this, prev, if prev == null then {} else {prev.prev}
      ensures x == if i > 0 then chain[i - 1] else null
      ensures x == null ==> unchanged(this)
      ensures x != null ==> x.Alone() && Chain(Omit(chain, i - 1))
    {
      assert InPlace(chain, i) && (i > 0 ==> InPlace(chain, i - 1)) && (i > 1 ==> InPlace(chain, i - 2));
      if prev == null {
        return null;
      }
      x := prev;
      var newPrev := x.prev;
      this.prev := newPrev;
      if newPrev != null {
        newPrev.next := this;
      }
      x.prev, x.next := null, null;
      OmitDistinct(chain, i - 1);
      ghost var r := Omit(chain, i - 1);
      forall k | 0 <= k < |r| ensures InPlace(r, k) {
        assert old(InPlace(chain, k)) && old(InPlace(chain, k + 1));
      }
    }
  }

  lemma FirstOmitted<T>(first: T, items: seq<T>, last: T)
    requires items != []
    ensures var s := [first] + items + [last]; s[1] == items[0] && Omit(s, 1) == [first] + items[1..] + [last]
  {
    var s := [first] + items + [last];
    assert Omit(s, 1) == [first] + items[1..] + [last];
  }

  lemma NeighboursMeet(nodes: seq<Linked>)
    requires AllDistinct(nodes) && |nodes| >= 2 && nodes[1] == nodes[|nodes| - 1]
    ensures |nodes| == 2
  {
  }

  /** A queue between two sentinels, as `Scheduler`, `Condition` and `BaseChannel` keep it. */
  class Queue {
    const head: Linked
    const tail: Linked
    ghost var items: seq<Linked>

    ghost function Nodes(): seq<Linked>
      reads this
    {
      [head] + items + [tail]
    }

    ghost predicate Valid()
      reads this, Nodes()
    {
      Chain(Nodes())
    }

    constructor ()
      ensures Valid() && items == [] && fresh(head) && fresh(tail)
    {
      head := new Linked();
      tail := new Linked();
      items := [];
      new;
      head.LinkBack(tail, [head], 0);
      assert Insert([head], 1, tail) == Nodes();
    }

    /** `tail.link_front`: the node comes last. */
    method Push(x: Linked)
      requires Valid() && x.Alone() && x !in Nodes()
      modifies this`items, x, tail, tail.prev
      ensures Valid() && items == old(items) + [x]
    {
      ghost var chain := Nodes();
      tail.LinkFront(x, chain, |items| + 1);
      items := items + [x];
      assert Insert(chain, |items|, x) == Nodes();
    }

    /** The guarded `head.unlink_back`: the first node, if there is one. */
    method Pop() returns (x: Linked?)
      requires Valid()
      modifies this`items, head, head.next, if head.next == null then {} else {head.next.next}
      ensures Valid()
      ensures old(items) == [] ==> x == null && unchanged(this, head, tail)
      ensures old(items) != [] ==> x == old(items)[0] && x.Alone() && items == old(items)[1..]
    {
      ghost var chain := Nodes();
      assert InPlace(chain, 0);
      if head.next == tail {
        assert items == [] by {
          assert chain[1] == tail && chain[|chain| - 1] == tail;
          NeighboursMeet(chain);
        }
        return null;
      }
      hide Omit;
      FirstOmitted(head, items, tail);
      x := head.UnlinkBack(chain, 0);
      items := items[1..];
    }
  }

  lemma OmitBetween(head: Linked, items: seq<Linked>, tail: Linked, i: nat)
    requires i < |items|
    ensures Omit([head] + items + [tail], i + 1) == [head] + Omit(items, i) + [tail]
  {
  }

  /** The two queues share no node. */
  ghost predicate Apart(p: Queue, q: Queue)
    reads p, q
  {
    forall n | n in p.Nodes() :: n !in q.Nodes()
  }

  /** `unlink_this` on a node of a queue, at position `i`: the node leaves that queue,
      which need not be named, and any other queue is as it was. */
  method Unlink(x: Linked, ghost holder: Queue, ghost i: nat, ghost other: Queue) returns (ok: bool)
    requires holder.Valid() && i < |holder.items| && holder.items[i] == x
    requires other.Valid() && Apart(holder, other)
    modifies x, x.prev, x.next, holder`items
    ensures ok && x.Alone() && x !in holder.Nodes()
    ensures holder.Valid() && holder.items == Omit(old(holder.items), i)
    ensures other.Valid() && other.items == old(other.items) && Apart(holder, other)
  {
    ghost var chain := holder.Nodes();
    assert chain[i + 1] == x;
    assert InPlace(chain, i + 1);
    assert x.prev == chain[i] && x.next == chain[i + 2] && chain[0] == holder.head;
    ghost var rest := other.Nodes();
    assert chain[0] in holder.Nodes() && chain[0] !in rest;
    assert holder != other && forall n | n in rest :: n != x && n != x.prev && n != x.next;
    ok := x.UnlinkThis(chain, i + 1);
    assert rest == other.Nodes() && Chain(rest) by {
      forall k | 0 <= k < |rest| ensures InPlace(rest, k) {
        assert old(InPlace(rest, k)) && rest[k] in rest;
      }
    }
    OmitDistinct(chain, i + 1);
    OmitBetween(holder.head, holder.items, holder.tail, i);
    holder.items := Omit(holder.items, i);
  }

  /** A second `unlink_this` does nothing. */
  method UnlinkAgain(x: Linked) returns (ok: bool)
    requires x.Alone()
    modifies x
    ensures !ok && x.Alone()
  {
    ok := x.UnlinkThis([x], 0);
  }
}
