/** Cascading deletion of a block and everything stacked inside it
    (`handleBlockRemove` / `removeRecursive` in App.tsx). */
module BlockTree {
  import opened Types
  import opened Seqs

  /** `blocks.filter(b => b.id !== bId)` */
  function WithoutId(blocks: seq<BlockItem>, bId: string): seq<BlockItem>
  {
    Filter(blocks, (b: BlockItem) => b.id != bId)
  }

  /** `blocks.filter(b => b.parentId === bId)` */
  function ChildrenOf(blocks: seq<BlockItem>, bId: string): seq<BlockItem>
  {
    Filter(blocks, (b: BlockItem) => b.parentId == Some(bId))
  }

  /** Starting from id `k`, following `n` parent links of blocks in `blocks`
      arrives at `target` (with `n == 0`, `k` is `target` itself). */
  ghost predicate Reach(blocks: seq<BlockItem>, k: string, target: string, n: nat)
    decreases n
  {
    if n == 0 then k == target
    else exists i :: 0 <= i < |blocks| && blocks[i].id == k && blocks[i].parentId.Some?
                     && Reach(blocks, blocks[i].parentId.value, target, n - 1)
  }

  /** The id `k` is `target` or its parent chain leads to `target`. */
  ghost predicate Doomed(blocks: seq<BlockItem>, k: string, target: string)
  {
    exists n: nat :: Reach(blocks, k, target, n)
  }

  /** What one call of `removeRecursive(bId, blocks)` leaves: an
      order-preserving subsequence without `bId`, in which no survivor hangs
      under `bId` or under an id that was removed, and in which an id is
      either kept on every block that carries it or removed from all of them. */
  ghost predicate RemovalSpec(blocks: seq<BlockItem>, result: seq<BlockItem>, bId: string)
  {
    && IsSubseq(result, blocks)
    && bId !in Ids(result)
    && (forall x :: x in result && x.parentId.Some? ==>
          x.parentId.value != bId && (x.parentId.value in Ids(blocks) ==> x.parentId.value in Ids(result)))
    && (forall j :: 0 <= j < |blocks| && blocks[j].id in Ids(result) ==> blocks[j] in result)
  }

  /** Every block that disappeared belonged to the removed subtree. */
  ghost predicate OnlyDoomedRemoved(blocks: seq<BlockItem>, result: seq<BlockItem>, bId: string)
  {
    forall j :: 0 <= j < |blocks| && blocks[j] !in result ==> Doomed(blocks, blocks[j].id, bId)
  }

  /** Every block `result` keeps, it keeps in as many copies as `blocks` has. */
  ghost predicate KeepsCopies(blocks: seq<BlockItem>, result: seq<BlockItem>)
  {
    forall x :: x in result ==> multiset(result)[x] == multiset(blocks)[x]
  }

  /** Keeping every copy carries over two removals in a row. */
  lemma KeepsCopiesTrans(a: seq<BlockItem>, b: seq<BlockItem>, c: seq<BlockItem>)
    requires KeepsCopies(a, b) && KeepsCopies(b, c)
    ensures KeepsCopies(a, c)
  {
    forall x | x in c ensures multiset(c)[x] == multiset(a)[x] {
      assert x in multiset(c);
      assert x in b;
    }
  }

  /** The id filter keeps every copy of the blocks it keeps. */
  lemma WithoutIdKeepsCopies(blocks: seq<BlockItem>, bId: string)
    ensures KeepsCopies(blocks, WithoutId(blocks, bId))
  {
    var r := WithoutId(blocks, bId);
    forall x | x in r ensures multiset(r)[x] == multiset(blocks)[x] {
      FilterCount(blocks, (b: BlockItem) => b.id != bId, x);
    }
  }

  /** With survival decided by the parent chain, the copies of a block that
      survive are all of its copies, and those of a removed one are none. */
  lemma CopiesOfSurvivors(blocks: seq<BlockItem>, result: seq<BlockItem>, bId: string)
    requires IsSubseq(result, blocks) && KeepsCopies(blocks, result)
    requires forall j :: 0 <= j < |blocks| ==> (blocks[j] in result <==> !Doomed(blocks, blocks[j].id, bId))
    ensures forall x :: multiset(result)[x] == if Doomed(blocks, x.id, bId) then 0 else multiset(blocks)[x]
  {
    forall x ensures multiset(result)[x] == if Doomed(blocks, x.id, bId) then 0 else multiset(blocks)[x] {
      if x in blocks {
        var j :| 0 <= j < |blocks| && blocks[j] == x;
      } else if x in result {
        SubseqMember(result, blocks, x);
      }
    }
  }

  lemma IdsOfSubseq(a: seq<BlockItem>, b: seq<BlockItem>)
    requires IsSubseq(a, b)
    ensures Ids(a) <= Ids(b)
  {
    forall k | k in Ids(a) ensures k in Ids(b) {
      var i :| 0 <= i < |a| && a[i].id == k;
      SubseqMember(a, b, a[i]);
      var j :| 0 <= j < |b| && b[j] == a[i];
    }
  }

  lemma InIds(s: seq<BlockItem>, x: BlockItem)
    requires x in s
    ensures x.id in Ids(s)
  {
    var i :| 0 <= i < |s| && s[i] == x;
  }

  /** Deleting blocks keeps ids unique and spans in range. */
  lemma {:induction false} SubseqKeepsWellFormed(a: seq<BlockItem>, b: seq<BlockItem>)
    requires IsSubseq(a, b)
    ensures UniqueIds(b) ==> UniqueIds(a)
    ensures WellFormedBlocks(b) ==> WellFormedBlocks(a)
    decreases |b|
  {
    if a == [] {
    } else if a[0] == b[0] && IsSubseq(a[1..], b[1..]) {
      SubseqKeepsWellFormed(a[1..], b[1..]);
      if UniqueIds(b) {
        assert UniqueIds(b[1..]) by {
          forall i, j | 0 <= i < |b[1..]| && 0 <= j < |b[1..]| && b[1..][i].id == b[1..][j].id ensures i == j {
            assert b[i + 1].id == b[j + 1].id;
          }
        }
        IdsOfSubseq(a[1..], b[1..]);
        assert forall j :: 0 <= j < |b[1..]| ==> b[1..][j].id != b[0].id by {
          forall j | 0 <= j < |b[1..]| ensures b[1..][j].id != b[0].id {
            assert b[1..][j] == b[j + 1];
          }
        }
        forall k | 1 <= k < |a| ensures a[k].id != a[0].id {
          assert a[k] == a[1..][k - 1];
          assert a[1..][k - 1].id in Ids(a[1..]);
        }
        forall i, j | 0 <= i < |a| && 0 <= j < |a| && a[i].id == a[j].id ensures i == j {
          if i > 0 && j > 0 {
            assert a[1..][i - 1].id == a[1..][j - 1].id;
          }
        }
      }
      if WellFormedBlocks(b) {
        forall i | 0 <= i < |a| ensures WellFormedBlock(a[i]) {
          if i > 0 { assert a[i] == a[1..][i - 1] && b[1..] == b[1..]; assert WellFormedBlocks(b[1..]); }
        }
      }
    } else {
      SubseqKeepsWellFormed(a, b[1..]);
    }
  }

  /** Reaching within a sub-list is reaching within the whole list. */
  lemma {:induction false} ReachMono(small: seq<BlockItem>, big: seq<BlockItem>, k: string, target: string, n: nat)
    requires IsSubseq(small, big)
    requires Reach(small, k, target, n)
    ensures Reach(big, k, target, n)
    decreases n
  {
    if n > 0 {
      var i :| 0 <= i < |small| && small[i].id == k && small[i].parentId.Some?
               && Reach(small, small[i].parentId.value, target, n - 1);
      SubseqMember(small, big, small[i]);
      var j :| 0 <= j < |big| && big[j] == small[i];
      ReachMono(small, big, small[i].parentId.value, target, n - 1);
    }
  }

  /** Parent chains compose. */
  lemma {:induction false} ReachTrans(blocks: seq<BlockItem>, k: string, m: string, target: string, n1: nat, n2: nat)
    requires Reach(blocks, k, m, n1) && Reach(blocks, m, target, n2)
    ensures Reach(blocks, k, target, n1 + n2)
    decreases n1
  {
    if n1 > 0 {
      var i :| 0 <= i < |blocks| && blocks[i].id == k && blocks[i].parentId.Some?
               && Reach(blocks, blocks[i].parentId.value, m, n1 - 1);
      ReachTrans(blocks, blocks[i].parentId.value, m, target, n1 - 1, n2);
    }
  }

  /** No block left by a removal lies in the removed subtree. */
  lemma {:induction false} SurvivorNotDoomedAt(blocks: seq<BlockItem>, result: seq<BlockItem>, bId: string, x: BlockItem, n: nat)
    requires RemovalSpec(blocks, result, bId)
    requires x in result
    ensures !Reach(blocks, x.id, bId, n)
    decreases n
  {
    if n == 0 {
      InIds(result, x);
    } else {
      forall i | 0 <= i < |blocks| && blocks[i].id == x.id && blocks[i].parentId.Some?
        ensures !Reach(blocks, blocks[i].parentId.value, bId, n - 1)
      {
        SurvivorParent(blocks, result, bId, x, i);
        var p := blocks[i].parentId.value;
        if n - 1 > 0 && p in Ids(blocks) {
          var k :| 0 <= k < |result| && result[k].id == p;
          SurvivorNotDoomedAt(blocks, result, bId, result[k], n - 1);
        }
      }
    }
  }

  /** A survivor's namesakes survive too, and their parent is neither the
      removed id nor an id that was removed. */
  lemma SurvivorParent(blocks: seq<BlockItem>, result: seq<BlockItem>, bId: string, x: BlockItem, i: int)
    requires RemovalSpec(blocks, result, bId) && x in result
    requires 0 <= i < |blocks| && blocks[i].id == x.id && blocks[i].parentId.Some?
    ensures blocks[i] in result && blocks[i].parentId.value != bId
    ensures blocks[i].parentId.value in Ids(blocks) ==> blocks[i].parentId.value in Ids(result)
  {
    InIds(result, x);
  }

  /** Together, the two halves of the contract of `RemoveRecursive` say
      exactly which blocks survive. */
  lemma RemovalIsExact(blocks: seq<BlockItem>, result: seq<BlockItem>, bId: string)
    requires RemovalSpec(blocks, result, bId) && OnlyDoomedRemoved(blocks, result, bId)
    ensures forall j :: 0 <= j < |blocks| ==> (blocks[j] in result <==> !Doomed(blocks, blocks[j].id, bId))
  {
    forall j, n: nat | 0 <= j < |blocks| && blocks[j] in result
      ensures !Reach(blocks, blocks[j].id, bId, n)
    {
      SurvivorNotDoomedAt(blocks, result, bId, blocks[j], n);
    }
  }

  /** What holds of the running result after the first `i` children of
      `bId` have been removed from it. */
  ghost predicate Progress(blocks: seq<BlockItem>, bId: string, children: seq<BlockItem>,
                           rest: seq<BlockItem>, newBlocks: seq<BlockItem>, i: nat)
  {
    && i <= |children|
    && IsSubseq(newBlocks, rest)
    && bId !in Ids(newBlocks)
    && (forall x :: x in newBlocks && x.parentId.Some? ==>
          (x.parentId.value == bId ==> x in children[i..]) &&
          (x.parentId.value != bId && x.parentId.value in Ids(blocks) ==> x.parentId.value in Ids(newBlocks)))
    && (forall j :: 0 <= j < |blocks| && blocks[j].id in Ids(newBlocks) ==> blocks[j] in newBlocks)
    && (forall j :: 0 <= j < |blocks| && blocks[j] !in newBlocks ==> Doomed(blocks, blocks[j].id, bId))
  }

  lemma ProgressStart(blocks: seq<BlockItem>, bId: string)
    ensures Progress(blocks, bId, ChildrenOf(blocks, bId), WithoutId(blocks, bId), WithoutId(blocks, bId), 0)
  {
    var rest := WithoutId(blocks, bId);
    SubseqRefl(rest);
    assert Reach(blocks, bId, bId, 0);
    forall x | x in rest && x.parentId.Some? && x.parentId.value != bId && x.parentId.value in Ids(blocks)
      ensures x.parentId.value in Ids(rest)
    {
      var k :| 0 <= k < |blocks| && blocks[k].id == x.parentId.value;
      InIds(rest, blocks[k]);
    }
    forall j | 0 <= j < |blocks| && blocks[j].id in Ids(rest)
      ensures blocks[j] in rest
    {
      var k :| 0 <= k < |rest| && rest[k].id == blocks[j].id;
    }
  }

  /** The recursive call on a child of `bId` is on a smaller measure. */
  lemma {:induction false} CallDecreases(blocks: seq<BlockItem>, bId: string, rest: seq<BlockItem>,
                                         newBlocks: seq<BlockItem>, child: BlockItem)
    requires rest == WithoutId(blocks, bId)
    requires IsSubseq(newBlocks, rest)
    requires child in blocks
    ensures |newBlocks| < |blocks| ||
            (|newBlocks| == |blocks| && bId !in Ids(blocks) && child.id in Ids(newBlocks))
  {
    SubseqLength(newBlocks, rest);
    if bId !in Ids(blocks) {
      assert rest == blocks;
      if |newBlocks| == |blocks| {
        InIds(newBlocks, child);
      }
    } else {
      var w :| 0 <= w < |blocks| && blocks[w].id == bId;
      assert |rest| < |blocks|;
    }
  }

  /** Removing child number `i` (and its subtree) keeps the progress made. */
  lemma ProgressStep(blocks: seq<BlockItem>, bId: string, children: seq<BlockItem>,
                     rest: seq<BlockItem>, before: seq<BlockItem>, after: seq<BlockItem>, i: nat)
    requires i < |children| && children[i] in blocks && children[i].parentId == Some(bId)
    requires IsSubseq(rest, blocks)
    requires Progress(blocks, bId, children, rest, before, i)
    requires RemovalSpec(before, after, children[i].id) && OnlyDoomedRemoved(before, after, children[i].id)
    ensures Progress(blocks, bId, children, rest, after, i + 1)
  {
    var child := children[i];
    SubseqTrans(after, before, rest);
    IdsOfSubseq(after, before);
    StepChildren(bId, children, before, after, i);
    StepParents(blocks, bId, before, after, child.id);
    StepWholeIds(blocks, before, after, child.id);
    SubseqTrans(before, rest, blocks);
    StepDoomed(blocks, bId, child, before, after);
  }

  /** Every block gone after child `i`'s subtree is removed lies under `bId`. */
  lemma StepDoomed(blocks: seq<BlockItem>, bId: string, child: BlockItem, before: seq<BlockItem>, after: seq<BlockItem>)
    requires child in blocks && child.parentId == Some(bId) && IsSubseq(before, blocks)
    requires forall j :: 0 <= j < |blocks| && blocks[j] !in before ==> Doomed(blocks, blocks[j].id, bId)
    requires OnlyDoomedRemoved(before, after, child.id)
    ensures forall j :: 0 <= j < |blocks| && blocks[j] !in after ==> Doomed(blocks, blocks[j].id, bId)
  {
    forall j | 0 <= j < |blocks| && blocks[j] !in after
      ensures Doomed(blocks, blocks[j].id, bId)
    {
      if blocks[j] in before {
        UnderChildIsDoomed(blocks, bId, child, before, after, blocks[j]);
      }
    }
  }

  /** After child `i` is removed, the children of `bId` left are among the
      later ones. */
  lemma StepChildren(bId: string, children: seq<BlockItem>, before: seq<BlockItem>, after: seq<BlockItem>, i: nat)
    requires i < |children| && IsSubseq(after, before)
    requires forall x :: x in before && x.parentId.Some? && x.parentId.value == bId ==> x in children[i..]
    requires children[i].id !in Ids(after)
    ensures forall x :: x in after && x.parentId.Some? && x.parentId.value == bId ==> x in children[i + 1..]
  {
    forall x | x in after && x.parentId.Some? && x.parentId.value == bId
      ensures x in children[i + 1..]
    {
      SubseqMember(after, before, x);
      InIds(after, x);
      var k :| 0 <= k < |children[i..]| && children[i..][k] == x;
      assert k != 0;
      assert children[i + 1..][k - 1] == x;
    }
  }

  /** Removing a child's subtree keeps every other kept parent. */
  lemma StepParents(blocks: seq<BlockItem>, bId: string, before: seq<BlockItem>, after: seq<BlockItem>, cId: string)
    requires IsSubseq(after, before)
    requires forall x :: x in before && x.parentId.Some? ==>
               (x.parentId.value != bId && x.parentId.value in Ids(blocks) ==> x.parentId.value in Ids(before))
    requires RemovalSpec(before, after, cId)
    ensures forall x :: x in after && x.parentId.Some? && x.parentId.value != bId && x.parentId.value in Ids(blocks) ==>
              x.parentId.value in Ids(after)
  {
    forall x | x in after && x.parentId.Some? && x.parentId.value != bId && x.parentId.value in Ids(blocks)
      ensures x.parentId.value in Ids(after)
    {
      SubseqMember(after, before, x);
    }
  }

  /** An id is still kept on every block of `blocks` that carries it. */
  lemma StepWholeIds(blocks: seq<BlockItem>, before: seq<BlockItem>, after: seq<BlockItem>, cId: string)
    requires Ids(after) <= Ids(before)
    requires forall j :: 0 <= j < |blocks| && blocks[j].id in Ids(before) ==> blocks[j] in before
    requires RemovalSpec(before, after, cId)
    ensures forall j :: 0 <= j < |blocks| && blocks[j].id in Ids(after) ==> blocks[j] in after
  {
    forall j | 0 <= j < |blocks| && blocks[j].id in Ids(after)
      ensures blocks[j] in after
    {
      var jj :| 0 <= jj < |before| && before[jj] == blocks[j];
    }
  }

  /** A block removed with a child's subtree was under `bId` all along. */
  lemma UnderChildIsDoomed(blocks: seq<BlockItem>, bId: string, child: BlockItem,
                           before: seq<BlockItem>, after: seq<BlockItem>, x: BlockItem)
    requires child in blocks && child.parentId == Some(bId) && IsSubseq(before, blocks)
    requires OnlyDoomedRemoved(before, after, child.id)
    requires x in before && x !in after
    ensures Doomed(blocks, x.id, bId)
  {
    var jj :| 0 <= jj < |before| && before[jj] == x;
    var n: nat :| Reach(before, x.id, child.id, n);
    ReachMono(before, blocks, x.id, child.id, n);
    assert Reach(blocks, bId, bId, 0);
    var c :| 0 <= c < |blocks| && blocks[c] == child;
    assert Reach(blocks, child.id, bId, 1);
    ReachTrans(blocks, x.id, child.id, bId, n, 1);
  }

  /** `removeRecursive(bId, blocks)`: drop `bId`, then remove each of its
      children (as found in the original list) from the running result.
      It terminates on any input, cyclic `parentId` links included: each
      recursive call either works on a shorter list, or on a list of the same
      length that contains the id being removed while the caller's did not. */
  method RemoveRecursive(bId: string, blocks: seq<BlockItem>) returns (result: seq<BlockItem>)
    ensures IsSubseq(result, blocks)
    ensures forall j :: 0 <= j < |blocks| ==> (blocks[j] in result <==> !Doomed(blocks, blocks[j].id, bId))
    ensures RemovalSpec(blocks, result, bId) && OnlyDoomedRemoved(blocks, result, bId)
    ensures KeepsCopies(blocks, result)
    ensures forall x :: multiset(result)[x] == if Doomed(blocks, x.id, bId) then 0 else multiset(blocks)[x]
    ensures ChildrenOf(blocks, bId) == [] ==> result == WithoutId(blocks, bId)
    decreases |blocks|, if bId in Ids(blocks) then 0 else 1
  {
    var children := ChildrenOf(blocks, bId);
    var newBlocks := WithoutId(blocks, bId);
    ghost var rest := newBlocks;
    ProgressStart(blocks, bId);
    WithoutIdKeepsCopies(blocks, bId);
    for i := 0 to |children|
      invariant i == 0 ==> newBlocks == rest
      invariant Progress(blocks, bId, children, rest, newBlocks, i)
      invariant KeepsCopies(blocks, newBlocks)
    {
      var child := children[i];
      ghost var before := newBlocks;
      CallDecreases(blocks, bId, rest, newBlocks, child);
      newBlocks := RemoveRecursive(child.id, newBlocks);
      assert child in blocks && child.parentId == Some(bId);
      ProgressStep(blocks, bId, children, rest, before, newBlocks, i);
      KeepsCopiesTrans(blocks, before, newBlocks);
    }
    result := newBlocks;
    SubseqTrans(result, rest, blocks);
    RemovalIsExact(blocks, result, bId);
    CopiesOfSurvivors(blocks, result, bId);
  }

  /** The archive's hard delete, by contrast, leaves the children of a
      deleted stack in place, while the cascading removal takes them. */
  lemma {:induction false} HardDeleteOrphansChildren(blocks: seq<BlockItem>, bId: string, j: nat)
    requires j < |blocks| && blocks[j].parentId == Some(bId) && blocks[j].id != bId
    ensures blocks[j] in WithoutId(blocks, bId)
    ensures Doomed(blocks, blocks[j].id, bId)
  {
    assert Reach(blocks, bId, bId, 0);
    assert Reach(blocks, blocks[j].id, bId, 1);
  }
}
