/** Destroying a suspended call stack: every live frame is freed once, innermost first,
    although the frames also own one another. */
module CoroutineDestruction {
  /** A frame and the coroutines it owns: those it awaits, and any it has not awaited. */
  datatype Tree = Tree(id: nat, owned: seq<Tree>)

  /** Every frame that the frame owns, directly or not, in the order in which their
      owners' destructors reach them: the owned ones last to first, then the frame. */
  function Frames(t: Tree): (ids: seq<nat>)
    ensures ids != [] && ids[|ids| - 1] == t.id
  {
    AllFrames(t.owned) + [t.id]
  }

  function AllFrames(ts: seq<Tree>): seq<nat> {
    if ts == [] then [] else Frames(ts[|ts| - 1]) + AllFrames(ts[..|ts| - 1])
  }

  /** `BaseFrame::_destroy`, when the handles of some frames are null already. */
  function Cascade(t: Tree, nulled: set<nat>): seq<nat> {
    if t.id in nulled then [] else CascadeAll(t.owned, nulled) + [t.id]
  }

  function CascadeAll(ts: seq<Tree>, nulled: set<nat>): seq<nat> {
    if ts == [] then [] else Cascade(ts[|ts| - 1], nulled) + CascadeAll(ts[..|ts| - 1], nulled)
  }

  /** No frame occurs twice. */
  ghost predicate Unique(ids: seq<nat>) {
    forall id: nat :: multiset(ids)[id] <= 1
  }

  lemma UniqueParts(a: seq<nat>, b: seq<nat>)
    requires Unique(a + b)
    ensures Unique(a) && Unique(b) && forall id | id in a :: id !in b
  {
    assert multiset(a + b) == multiset(a) + multiset(b);
    forall id: nat ensures multiset(a)[id] <= 1 && multiset(b)[id] <= 1 && !(id in a && id in b) {
      assert multiset(a + b)[id] == multiset(a)[id] + multiset(b)[id];
      assert multiset(a + b)[id] <= 1;
    }
  }

  function Elements(ids: seq<nat>): (s: set<nat>)
    ensures forall id :: id in s <==> id in ids
  {
    set id | id in ids
  }

  predicate Clear(ids: seq<nat>, nulled: set<nat>) {
    forall id | id in ids :: id !in nulled
  }

  lemma {:induction false} CascadeIsAll(t: Tree, nulled: set<nat>)
    requires Clear(Frames(t), nulled)
    ensures Cascade(t, nulled) == Frames(t)
  {
    assert t.id in Frames(t);
    CascadesAreAll(t.owned, nulled);
  }

  lemma {:induction false} CascadesAreAll(ts: seq<Tree>, nulled: set<nat>)
    requires Clear(AllFrames(ts), nulled)
    ensures CascadeAll(ts, nulled) == AllFrames(ts)
  {
    if ts != [] {
      CascadeIsAll(ts[|ts| - 1], nulled);
      CascadesAreAll(ts[..|ts| - 1], nulled);
    }
  }

  /** One cascade frees part of what the frame owns, nothing else and nothing twice. */
  lemma {:induction false} CascadeWithin(t: Tree, nulled: set<nat>)
    ensures multiset(Cascade(t, nulled)) <= multiset(Frames(t))
  {
    CascadesWithin(t.owned, nulled);
  }

  lemma CascadeIds(t: Tree, nulled: set<nat>)
    ensures forall id | id in Cascade(t, nulled) :: id in Frames(t)
  {
    CascadeWithin(t, nulled);
    forall id | id in Cascade(t, nulled) ensures id in Frames(t) {
      assert multiset(Cascade(t, nulled))[id] > 0;
      assert multiset(Frames(t))[id] > 0;
    }
  }

  lemma {:induction false} CascadesWithin(ts: seq<Tree>, nulled: set<nat>)
    ensures multiset(CascadeAll(ts, nulled)) <= multiset(AllFrames(ts))
  {
    if ts != [] {
      CascadeWithin(ts[|ts| - 1], nulled);
      CascadesWithin(ts[..|ts| - 1], nulled);
    }
  }

  /** The two sets of null handles agree about the frames of `t`, or on its own. */
  predicate Agree(t: Tree, a: set<nat>, b: set<nat>) {
    (t.id in a && t.id in b) || forall id | id in Frames(t) :: id in a <==> id in b
  }

  lemma {:induction false} CascadeAgrees(t: Tree, a: set<nat>, b: set<nat>)
    requires Agree(t, a, b)
    ensures Cascade(t, a) == Cascade(t, b)
  {
    if t.id !in a {
      assert t.id in Frames(t);
      assert forall u | u in t.owned :: Agree(u, a, b) by {
        forall u | u in t.owned ensures Agree(u, a, b) {
          OwnedWithin(t.owned, u);
        }
      }
      CascadesAgree(t.owned, a, b);
    }
  }

  lemma {:induction false} CascadesAgree(ts: seq<Tree>, a: set<nat>, b: set<nat>)
    requires forall t | t in ts :: Agree(t, a, b)
    ensures CascadeAll(ts, a) == CascadeAll(ts, b)
  {
    if ts != [] {
      CascadeAgrees(ts[|ts| - 1], a, b);
      CascadesAgree(ts[..|ts| - 1], a, b);
    }
  }

  lemma {:induction false} OwnedWithin(ts: seq<Tree>, t: Tree)
    requires t in ts
    ensures multiset(Frames(t)) <= multiset(AllFrames(ts))
    ensures forall id | id in Frames(t) :: id in AllFrames(ts)
  {
    if t != ts[|ts| - 1] {
      OwnedWithin(ts[..|ts| - 1], t);
    }
  }

  // ---------- the call stack ----------

  /** From the entry to the current frame, each frame awaits the next, which it owns. */
  predicate IsStack(stack: seq<Tree>) {
    stack != [] && forall i | 0 <= i < |stack| - 1 :: stack[i + 1] in stack[i].owned
  }

  function Ids(stack: seq<Tree>): set<nat> {
    set t | t in stack :: t.id
  }

  /** What the loop frees for the frames of the stack from position `i` on. */
  function Freed(stack: seq<Tree>, i: nat): seq<nat>
    requires i <= |stack|
    decreases |stack| - i
  {
    if i == |stack| then [] else Freed(stack, i + 1) + CascadeAll(stack[i].owned, Ids(stack[i..])) + [stack[i].id]
  }

  /** The frames above are all owned, in the end, by those below. */
  lemma {:induction false} StackWithin(stack: seq<Tree>, i: nat)
    requires IsStack(stack) && i < |stack|
    ensures forall id | id in Ids(stack[i..]) :: id in Frames(stack[i])
    decreases |stack| - i
  {
    if i + 1 < |stack| {
      StackWithin(stack, i + 1);
      OwnedWithin(stack[i].owned, stack[i + 1]);
      assert stack[i..] == [stack[i]] + stack[i + 1..];
    }
  }

  /** All children but one are freed whole, that one not at all. */
  lemma {:induction false} AllButOne(ts: seq<Tree>, t: Tree, nulled: set<nat>)
    requires t in ts && t.id in nulled && Unique(AllFrames(ts))
    requires forall id | id in nulled && id in AllFrames(ts) :: id in Frames(t)
    ensures multiset(CascadeAll(ts, nulled)) + multiset(Frames(t)) == multiset(AllFrames(ts))
  {
    hide Unique;
    var last, front := ts[|ts| - 1], ts[..|ts| - 1];
    UniqueParts(Frames(last), AllFrames(front));
    assert multiset(AllFrames(ts)) == multiset(Frames(last)) + multiset(AllFrames(front));
    assert multiset(CascadeAll(ts, nulled)) == multiset(Cascade(last, nulled)) + multiset(CascadeAll(front, nulled));
    if last == t {
      CascadesAreAll(front, nulled);
    } else {
      OwnedWithin(front, t);
      CascadeIsAll(last, nulled);
      AllButOne(front, t, nulled);
    }
  }

  lemma {:induction false} UniqueOwned(ts: seq<Tree>, t: Tree)
    requires t in ts && Unique(AllFrames(ts))
    ensures Unique(Frames(t))
  {
    OwnedWithin(ts, t);
  }

  lemma UniqueBelow(t: Tree)
    requires Unique(Frames(t))
    ensures Unique(AllFrames(t.owned)) && t.id !in AllFrames(t.owned)
  {
    UniqueParts(AllFrames(t.owned), [t.id]);
    assert t.id in [t.id];
  }

  lemma NulledAbove(stack: seq<Tree>, i: nat)
    requires IsStack(stack) && i + 1 < |stack| && Unique(Frames(stack[i]))
    ensures Ids(stack[i..]) == {stack[i].id} + Ids(stack[i + 1..]) && stack[i + 1].id in Ids(stack[i..])
    ensures forall id | id in Ids(stack[i..]) && id in AllFrames(stack[i].owned) :: id in Frames(stack[i + 1])
  {
    assert stack[i..] == [stack[i]] + stack[i + 1..];
    assert stack[i + 1] in stack[i + 1..];
    UniqueBelow(stack[i]);
    StackWithin(stack, i + 1);
  }

  /** What the loop frees from position `i` on is what the frame there owns, each frame
      of it once: as many as if the frame had been destroyed through its owner alone. */
  lemma {:induction false} FreesEachOnce(stack: seq<Tree>, i: nat)
    requires IsStack(stack) && i < |stack| && Unique(Frames(stack[i]))
    ensures multiset(Freed(stack, i)) == multiset(Frames(stack[i])) == multiset(Cascade(stack[i], {}))
    ensures Unique(Freed(stack, i))
    decreases |stack| - i
  {
    hide Unique, IsStack, Ids, Freed, Frames;
    var t := stack[i];
    OwnedAbove(stack, i);
    EndsFreed(stack);
    CascadeIsAll(t, {});
    UniqueBelow(t);
    if i + 1 == |stack| {
      CascadesAreAll(t.owned, {t.id});
      FreedSum(stack, i);
    } else {
      var above := stack[i + 1];
      UniqueOwned(t.owned, above);
      FreesEachOnce(stack, i + 1);
      NulledAbove(stack, i);
      AllButOne(t.owned, above, Ids(stack[i..]));
      FreedSum(stack, i);
    }
    SameUnique(Frames(t), Freed(stack, i));
  }

  lemma SameUnique(a: seq<nat>, b: seq<nat>)
    requires multiset(a) == multiset(b) && Unique(a)
    ensures Unique(b)
  {
  }

  lemma FreedNext(stack: seq<Tree>, i: nat)
    requires i < |stack|
    ensures Freed(stack, i) == Freed(stack, i + 1) + (CascadeAll(stack[i].owned, Ids(stack[i..])) + [stack[i].id])
  {
  }

  lemma EndsFreed(stack: seq<Tree>)
    ensures Freed(stack, |stack|) == []
  {
  }

  lemma OwnedAbove(stack: seq<Tree>, i: nat)
    requires IsStack(stack) && i < |stack|
    ensures i + 1 < |stack| ==> stack[i + 1] in stack[i].owned
    ensures i + 1 == |stack| ==> Ids(stack[i..]) == {stack[i].id}
  {
    if i + 1 == |stack| {
      assert stack[i..] == [stack[i]];
    }
  }

  lemma FreedSum(stack: seq<Tree>, i: nat)
    requires i < |stack|
    ensures multiset(Freed(stack, i)) ==
      multiset(Freed(stack, i + 1)) + multiset(CascadeAll(stack[i].owned, Ids(stack[i..]))) + multiset{stack[i].id}
    ensures multiset(Frames(stack[i])) == multiset(AllFrames(stack[i].owned)) + multiset{stack[i].id}
  {
  }

  /** A frame is freed after everything above it: what had been freed by then is a
      prefix of the whole, and ends with the frame. */
  lemma {:induction false} InnermostFirst(stack: seq<Tree>, i: nat, j: nat)
    requires IsStack(stack) && i <= j < |stack|
    ensures Freed(stack, j) <= Freed(stack, i)
    ensures Freed(stack, j) != [] && Freed(stack, j)[|Freed(stack, j)| - 1] == stack[j].id
    ensures i < j ==> |Freed(stack, j)| < |Freed(stack, i)|
    decreases j - i
  {
    hide CascadeAll, Frames, IsStack, Ids;
    FreedNext(stack, i);
    if i < j {
      InnermostFirst(stack, i + 1, j);
    } else {
      FreedNext(stack, j);
    }
  }

  // ---------- in memory ----------

  /** The destructor's next step: whole frames lie ahead of it and behind it. */
  lemma NextOwned(ts: seq<Tree>, n: nat, before: set<nat>, nulled: set<nat>, done: seq<nat>)
    requires n < |ts| && nulled == before + Elements(done)
    requires Unique(AllFrames(ts[..n + 1])) && Clear(AllFrames(ts[..n + 1]), Elements(done))
    ensures Unique(Frames(ts[n])) && Unique(AllFrames(ts[..n])) && Cascade(ts[n], nulled) == Cascade(ts[n], before)
    ensures Clear(AllFrames(ts[..n]), Elements(done + Cascade(ts[n], nulled)))
    ensures CascadeAll(ts[..n + 1], before) == Cascade(ts[n], before) + CascadeAll(ts[..n], before)
  {
    var child, rest := ts[n], ts[..n];
    assert ts[..n + 1][..n] == rest;
    assert AllFrames(ts[..n + 1]) == Frames(child) + AllFrames(rest);
    UniqueParts(Frames(child), AllFrames(rest));
    CascadeIds(child, nulled);
    assert forall id | id in AllFrames(rest) :: id in AllFrames(ts[..n + 1]);
    CascadeAgrees(child, nulled, before);
  }

  lemma NothingNulled(ts: seq<Tree>)
    ensures ts[..|ts|] == ts && Elements([]) == {} && Clear(AllFrames(ts), Elements([]))
  {
  }

  lemma MoreNulled(done: seq<nat>, more: seq<nat>)
    ensures Elements(done + more) == Elements(done) + Elements(more)
  {
  }

  lemma NothingOwned(ts: seq<Tree>, before: set<nat>)
    ensures CascadeAll(ts[..0], before) == []
  {
  }

  /** The handles of the frames' owners, and what has been freed. */
  class Memory {
    var nulled: set<nat>
    var freed: seq<nat>

    constructor ()
      ensures nulled == {} && freed == []
    {
      nulled, freed := {}, [];
    }

    /** `~BaseFrame` of the owner: nothing if its handle is null. */
    method Destroy(t: Tree)
      requires Unique(Frames(t))
      modifies this
      ensures freed == old(freed) + Cascade(t, old(nulled))
      ensures nulled == old(nulled) + Elements(Cascade(t, old(nulled)))
      decreases t, 1
    {
      if t.id !in nulled {
        DestroyHandler(t);
        nulled := nulled + {t.id};
      }
    }

    /** `_handler.destroy()`: the coroutines that the frame owns, then the frame. */
    method DestroyHandler(t: Tree)
      requires Unique(Frames(t))
      modifies this
      ensures freed == old(freed) + CascadeAll(t.owned, old(nulled)) + [t.id]
      ensures nulled == old(nulled) + Elements(CascadeAll(t.owned, old(nulled)))
      decreases t, 0
    {
      hide Frames, AllFrames, Cascade, CascadeAll, Unique, Clear, Elements;
      UniqueBelow(t);
      var n := |t.owned|;
      ghost var done: seq<nat> := [];
      NothingNulled(t.owned);
      while n > 0
        invariant 0 <= n <= |t.owned|
        invariant freed == old(freed) + done && nulled == old(nulled) + Elements(done)
        invariant CascadeAll(t.owned, old(nulled)) == done + CascadeAll(t.owned[..n], old(nulled))
        invariant Unique(AllFrames(t.owned[..n])) && Clear(AllFrames(t.owned[..n]), Elements(done))
      {
        n := n - 1;
        var child := t.owned[n];
        NextOwned(t.owned, n, old(nulled), nulled, done);
        MoreNulled(done, Cascade(child, nulled));
        done := done + Cascade(child, nulled);
        Destroy(child);
      }
      NothingOwned(t.owned, old(nulled));
      freed := freed + [t.id];
    }

    /** `_call_stack_destroy`: from the current frame to the entry, null the handle of
        each frame's owner, and destroy the frame. */
    method CallStackDestroy(stack: seq<Tree>)
      requires IsStack(stack) && Unique(Frames(stack[0])) && Clear(Frames(stack[0]), nulled)
      modifies this
      ensures freed == old(freed) + Freed(stack, 0)
      ensures forall id | id in Frames(stack[0]) :: id in nulled
      ensures Cascade(stack[0], nulled) == []
    {
      hide Freed, CascadeAll, Frames, Ids, Unique;
      var i := |stack|;
      EndsFreed(stack);
      while i > 0
        invariant 0 <= i <= |stack|
        invariant freed == old(freed) + Freed(stack, i)
        invariant nulled == old(nulled) + Elements(Freed(stack, i))
      {
        i := i - 1;
        nulled := nulled + {stack[i].id};
        OwnedByEntry(stack, i);
        CascadesFreed(stack, i, old(nulled), nulled);
        DestroyHandler(stack[i]);
        FreedNext(stack, i);
      }
      FreedIds(stack, 0);
    }
  }

  /** Every frame of the stack is owned, in the end, by the entry, and listed once. */
  lemma {:induction false} OwnedByEntry(stack: seq<Tree>, i: nat)
    requires IsStack(stack) && i < |stack| && Unique(Frames(stack[0]))
    ensures Unique(Frames(stack[i])) && forall id | id in Frames(stack[i]) :: id in Frames(stack[0])
  {
    if i > 0 {
      OwnedByEntry(stack, i - 1);
      UniqueBelow(stack[i - 1]);
      UniqueOwned(stack[i - 1].owned, stack[i]);
      OwnedWithin(stack[i - 1].owned, stack[i]);
    }
  }

  lemma {:induction false} SiblingsApart(ts: seq<Tree>, t: Tree, u: Tree)
    requires Unique(AllFrames(ts)) && t in ts && u in ts && t != u
    ensures forall id | id in Frames(t) :: id !in Frames(u)
  {
    var last, front := ts[|ts| - 1], ts[..|ts| - 1];
    UniqueParts(Frames(last), AllFrames(front));
    if t == last {
      OwnedWithin(front, u);
    } else if u == last {
      OwnedWithin(front, t);
    } else {
      SiblingsApart(front, t, u);
    }
  }

  /** What has been freed above makes no difference to the other frames owned. */
  lemma CascadesFreed(stack: seq<Tree>, i: nat, before: set<nat>, nulled: set<nat>)
    requires IsStack(stack) && i < |stack| && Unique(Frames(stack[i])) && Clear(Frames(stack[i]), before)
    requires nulled == before + Elements(Freed(stack, i + 1)) + {stack[i].id}
    ensures CascadeAll(stack[i].owned, nulled) == CascadeAll(stack[i].owned, Ids(stack[i..]))
  {
    var t := stack[i];
    UniqueBelow(t);
    OwnedAbove(stack, i);
    forall u | u in t.owned ensures Agree(u, nulled, Ids(stack[i..])) {
      OwnedWithin(t.owned, u);
      if i + 1 == |stack| {
        EndsFreed(stack);
      } else {
        ChildAgrees(stack, i, u, before, nulled);
      }
    }
    CascadesAgree(t.owned, nulled, Ids(stack[i..]));
  }

  lemma ChildAgrees(stack: seq<Tree>, i: nat, u: Tree, before: set<nat>, nulled: set<nat>)
    requires IsStack(stack) && i + 1 < |stack| && Unique(Frames(stack[i])) && Clear(Frames(stack[i]), before)
    requires nulled == before + Elements(Freed(stack, i + 1)) + {stack[i].id} && u in stack[i].owned
    ensures Agree(u, nulled, Ids(stack[i..]))
  {
    var t, above := stack[i], stack[i + 1];
    UniqueBelow(t);
    UniqueOwned(t.owned, above);
    OwnedWithin(t.owned, u);
    FreedIds(stack, i + 1);
    NulledAbove(stack, i);
    if u == above {
      assert above.id in Frames(above);
    } else {
      SiblingsApart(t.owned, above, u);
    }
  }

  lemma FreedIds(stack: seq<Tree>, i: nat)
    requires IsStack(stack) && i < |stack| && Unique(Frames(stack[i]))
    ensures forall id :: id in Freed(stack, i) <==> id in Frames(stack[i])
  {
    FreesEachOnce(stack, i);
    forall id ensures id in Freed(stack, i) <==> id in Frames(stack[i]) {
      assert multiset(Freed(stack, i))[id] == multiset(Frames(stack[i]))[id];
    }
  }
}
