// Compaction: the allocated blocks slide down in order and one FREE block holds the rest.

module Compaction {
  import opened Types
  import opened BlockTable
  import opened Allocation

  function Sum(bs: seq<Block>): nat {
    if bs == [] then 0 else Sum(bs[..|bs| - 1]) + bs[|bs| - 1].size
  }

  // The allocated blocks, or the FREE ones, in order.
  function Kept(bs: seq<Block>, free: bool): seq<Block> {
    if bs == [] then []
    else
      var n := |bs| - 1;
      if bs[n].kind.FREE? == free then Kept(bs[..n], free) + [bs[n]] else Kept(bs[..n], free)
  }

  lemma {:induction false} KeptMembers(bs: seq<Block>, free: bool)
    ensures forall b :: b in Kept(bs, free) <==> b in bs && b.kind.FREE? == free
  {
    if bs != [] {
      var n := |bs| - 1;
      KeptMembers(bs[..n], free);
      assert bs == bs[..n] + [bs[n]];
    }
  }

  function UsedKB(bs: seq<Block>): nat {
    Sum(Kept(bs, false))
  }

  function FreeKB(bs: seq<Block>): nat {
    Sum(Kept(bs, true))
  }

  lemma SumSnoc(bs: seq<Block>, b: Block)
    ensures Sum(bs + [b]) == Sum(bs) + b.size
  {
    assert (bs + [b])[..|bs|] == bs;
  }

  lemma {:induction false} SumOfTiling(bs: seq<Block>, lo: nat, hi: nat)
    requires Tiling(bs, lo, hi)
    ensures Sum(bs) == hi - lo
  {
    if bs != [] {
      var front, b := bs[..|bs| - 1], bs[|bs| - 1];
      assert bs == front + [b];
      TilingSnoc(front, lo, b);
      SumOfTiling(front, lo, b.start);
    }
  }

  lemma {:induction false} SumSplits(bs: seq<Block>)
    ensures UsedKB(bs) + FreeKB(bs) == Sum(bs)
  {
    if bs != [] {
      var n := |bs| - 1;
      SumSplits(bs[..n]);
      if bs[n].kind.FREE? {
        SumSnoc(Kept(bs[..n], true), bs[n]);
      } else {
        SumSnoc(Kept(bs[..n], false), bs[n]);
      }
    }
  }

  // Used and free memory add up to all of it.
  lemma UsedPlusFree(m: Mem)
    requires ValidTable(m.blocks, m.total)
    ensures UsedKB(m.blocks) + FreeKB(m.blocks) == m.total
  {
    SumOfTiling(m.blocks, 0, m.total);
    SumSplits(m.blocks);
  }

  lemma {:induction false} SumMonotone(bs: seq<Block>, k: nat)
    requires k <= |bs|
    ensures Sum(bs[..k]) <= Sum(bs)
    decreases |bs|
  {
    if k < |bs| {
      SumMonotone(bs[..|bs| - 1], k);
      assert bs[..|bs| - 1][..k] == bs[..k];
    } else {
      assert bs[..k] == bs;
    }
  }

  // The 32-bit sum, which may wrap.
  function Sum32(bs: seq<Block>): uint32 {
    if bs == [] then 0 else Add32(Sum32(bs[..|bs| - 1]), bs[|bs| - 1].size)
  }

  lemma {:induction false} Sum32IsSum(bs: seq<Block>)
    requires Sum(bs) < 0x1_0000_0000
    ensures Sum32(bs) == Sum(bs)
  {
    if bs != [] {
      Sum32IsSum(bs[..|bs| - 1]);
    }
  }

  // The 32-bit totals do not wrap on a valid table.
  lemma Totals(m: Mem)
    requires ValidTable(m.blocks, m.total)
    ensures Sum32(Kept(m.blocks, false)) == UsedKB(m.blocks) && Sum32(Kept(m.blocks, true)) == FreeKB(m.blocks)
    ensures UsedKB(m.blocks) + FreeKB(m.blocks) == m.total
  {
    UsedPlusFree(m);
    Sum32IsSum(Kept(m.blocks, false));
    Sum32IsSum(Kept(m.blocks, true));
  }

  // The blocks moved down so that each starts where the one before it ends.
  function Slide(bs: seq<Block>): (r: seq<Block>)
    ensures |r| == |bs|
  {
    if bs == [] then []
    else
      var n := |bs| - 1;
      Slide(bs[..n]) + [bs[n].(start := Sum32(bs[..n]))]
  }

  // Sliding keeps everything about each block but its address.
  lemma {:induction false} SlideAt(bs: seq<Block>, k: nat)
    requires Sum(bs) < 0x1_0000_0000 && k < |bs|
    ensures Sum(bs[..k]) < 0x1_0000_0000
    ensures Slide(bs)[k] == bs[k].(start := Sum(bs[..k]))
    decreases |bs|
  {
    SumMonotone(bs, k);
    var n := |bs| - 1;
    if k < n {
      SlideAt(bs[..n], k);
      assert bs[..n][..k] == bs[..k];
    } else {
      Sum32IsSum(bs[..n]);
    }
  }

  lemma {:induction false} SlideTiling(bs: seq<Block>)
    requires Sum(bs) < 0x1_0000_0000 && forall i :: 0 <= i < |bs| ==> bs[i].size > 0
    ensures Tiling(Slide(bs), 0, Sum(bs))
  {
    if bs != [] {
      var n := |bs| - 1;
      SlideTiling(bs[..n]);
      Sum32IsSum(bs[..n]);
      TilingSnoc(Slide(bs[..n]), 0, bs[n].(start := Sum(bs[..n])));
    }
  }

  lemma {:induction false} SlideIdempotent(bs: seq<Block>)
    ensures Sum(Slide(bs)) == Sum(bs) && Sum32(Slide(bs)) == Sum32(bs) && Slide(Slide(bs)) == Slide(bs)
  {
    if bs != [] {
      var n := |bs| - 1;
      var last := bs[n].(start := Sum32(bs[..n]));
      SlideIdempotent(bs[..n]);
      SumSnoc(Slide(bs[..n]), last);
      assert Slide(bs)[..n] == Slide(bs[..n]);
    }
  }

  // What compaction leaves of any table; the last case is a memory of size 0 without blocks.
  function Compacted(bs: seq<Block>, total: uint32): seq<Block> {
    var slid, used := Slide(Kept(bs, false)), Sum32(Kept(bs, false));
    if used < total then slid + [FreeBlock(used, total - used)]
    else if slid == [] then [FreeBlock(0, total)]
    else slid
  }

  lemma {:induction false} KeptConcat(a: seq<Block>, b: seq<Block>, free: bool)
    ensures Kept(a + b, free) == Kept(a, free) + Kept(b, free)
  {
    if b == [] {
      assert a + b == a;
    } else {
      var n := |b| - 1;
      var s := a + b;
      assert s[..|s| - 1] == a + b[..n] && s[|s| - 1] == b[n];
      KeptConcat(a, b[..n], free);
      assert (Kept(a, free) + Kept(b[..n], free)) + [b[n]] == Kept(a, free) + (Kept(b[..n], free) + [b[n]]);
    }
  }

  lemma {:induction false} KeptAll(bs: seq<Block>, free: bool)
    requires forall b :: b in bs ==> b.kind.FREE? == free
    ensures Kept(bs, free) == bs && Kept(bs, !free) == []
  {
    if bs != [] {
      KeptAll(bs[..|bs| - 1], free);
    }
  }

  lemma {:induction false} SlideKinds(bs: seq<Block>)
    requires forall b :: b in bs ==> !b.kind.FREE?
    ensures forall b :: b in Slide(bs) ==> !b.kind.FREE?
  {
    if bs != [] {
      SlideKinds(bs[..|bs| - 1]);
    }
  }

  lemma UsedFits(m: Mem)
    requires ValidTable(m.blocks, m.total)
    ensures UsedKB(m.blocks) <= m.total
  {
    UsedPlusFree(m);
  }

  // On a valid table no sum wraps and there is always a block.
  lemma CompactedForm(m: Mem)
    requires ValidTable(m.blocks, m.total)
    ensures UsedKB(m.blocks) <= m.total
    ensures Compacted(m.blocks, m.total) == Slide(Kept(m.blocks, false)) +
      if UsedKB(m.blocks) < m.total then [FreeBlock(UsedKB(m.blocks), m.total - UsedKB(m.blocks))] else []
  {
    Totals(m);
  }

  // The allocated and FREE parts of a compacted table.
  lemma CompactedParts(m: Mem)
    requires ValidTable(m.blocks, m.total)
    ensures UsedKB(m.blocks) <= m.total
    ensures var c := Compacted(m.blocks, m.total);
      && Kept(c, false) == Slide(Kept(m.blocks, false))
      && Kept(c, true) ==
        if UsedKB(m.blocks) < m.total then [FreeBlock(UsedKB(m.blocks), m.total - UsedKB(m.blocks))] else []
  {
    CompactedForm(m);
    var a := Slide(Kept(m.blocks, false));
    var f := if UsedKB(m.blocks) < m.total then [FreeBlock(UsedKB(m.blocks), m.total - UsedKB(m.blocks))] else [];
    KeptMembers(m.blocks, false);
    SlideKinds(Kept(m.blocks, false));
    KeptAll(a, false);
    KeptAll(f, true);
    KeptConcat(a, f, false);
    KeptConcat(a, f, true);
  }

  // The sliding blocks tile the used part of memory.
  lemma CompactedUsedPart(m: Mem)
    requires ValidTable(m.blocks, m.total)
    ensures UsedKB(m.blocks) <= m.total
    ensures Tiling(Slide(Kept(m.blocks, false)), 0, UsedKB(m.blocks))
    ensures forall b :: b in Slide(Kept(m.blocks, false)) ==> !b.kind.FREE?
  {
    UsedFits(m);
    var before := Kept(m.blocks, false);
    KeptMembers(m.blocks, false);
    assert forall k :: 0 <= k < |before| ==> before[k] in m.blocks;
    SlideTiling(before);
    SlideKinds(before);
  }

  lemma CompactedTable(m: Mem)
    requires ValidTable(m.blocks, m.total)
    ensures UsedKB(m.blocks) <= m.total && TableOk(Compacted(m.blocks, m.total), m.total)
  {
    CompactedUsedPart(m);
    CompactedForm(m);
    var slid := Slide(Kept(m.blocks, false));
    var used := UsedKB(m.blocks);
    if used < m.total {
      Join(slid, [FreeBlock(used, m.total - used)], 0, used, m.total);
    } else {
      assert slid + [] == slid;
    }
  }

  // Compaction keeps the number and order of the allocated blocks and everything about each but its address,
  // and leaves at most one FREE block, at the end, holding all that is free.
  lemma CompactionKeepsBlocks(m: Mem)
    requires ValidTable(m.blocks, m.total)
    ensures UsedKB(m.blocks) + FreeKB(m.blocks) == m.total
    ensures var before, c := Kept(m.blocks, false), Compacted(m.blocks, m.total);
      && |c| == |before| + (if FreeKB(m.blocks) == 0 then 0 else 1)
      && (forall k :: 0 <= k < |before| ==> c[k] == before[k].(start := c[k].start) && !c[k].kind.FREE?)
      && (FreeKB(m.blocks) > 0 ==> c[|before|] == FreeBlock(UsedKB(m.blocks), FreeKB(m.blocks)))
  {
    CompactedForm(m);
    UsedPlusFree(m);
    var before, c := Kept(m.blocks, false), Compacted(m.blocks, m.total);
    KeptMembers(m.blocks, false);
    forall k | 0 <= k < |before| ensures c[k] == before[k].(start := c[k].start) && !c[k].kind.FREE? {
      SlideAt(before, k);
      assert before[k] in before;
    }
  }

  lemma CompactIdempotent(m: Mem)
    requires ValidTable(m.blocks, m.total)
    ensures UsedKB(m.blocks) <= m.total
    ensures UsedKB(Compacted(m.blocks, m.total)) <= m.total
    ensures Compacted(Compacted(m.blocks, m.total), m.total) == Compacted(m.blocks, m.total)
  {
    UsedFits(m);
    CompactedParts(m);
    SlideIdempotent(Kept(m.blocks, false));
  }

  lemma CompactedFree(m: Mem, b: Block)
    requires ValidTable(m.blocks, m.total)
    ensures UsedKB(m.blocks) + FreeKB(m.blocks) == m.total
    ensures b in Compacted(m.blocks, m.total) && b.kind.FREE? <==>
      FreeKB(m.blocks) > 0 && b == FreeBlock(UsedKB(m.blocks), FreeKB(m.blocks))
  {
    UsedPlusFree(m);
    CompactedParts(m);
    KeptMembers(Compacted(m.blocks, m.total), true);
  }

  // After compaction a request succeeds, under any policy, exactly when there is that much free memory.
  lemma CompactedAcceptsAllThatIsFree(m: Mem, algorithm: AllocAlgorithm, size: uint32)
    requires ValidTable(m.blocks, m.total) && size > 0
    ensures UsedKB(m.blocks) <= m.total
    ensures Find(Compacted(m.blocks, m.total), algorithm, size).Some? <==> size <= FreeKB(m.blocks)
  {
    UsedPlusFree(m);
    var c := Compacted(m.blocks, m.total);
    CompactedFree(m, FreeBlock(UsedKB(m.blocks), FreeKB(m.blocks)));
    var r := Find(c, algorithm, size);
    if r.Some? {
      assert c[r.value] in c;
      CompactedFree(m, c[r.value]);
    }
  }

  // Where each process block of a table starts; the last block of a pid counts.
  function Starts(bs: seq<Block>): map<uint32, uint32> {
    if bs == [] then map[]
    else
      var b := bs[|bs| - 1];
      if b.kind.PROCESS? then Starts(bs[..|bs| - 1])[b.pid := b.start] else Starts(bs[..|bs| - 1])
  }

  ghost predicate OneBlockPerPid(bs: seq<Block>) {
    forall i, j :: 0 <= i < j < |bs| && bs[i].kind.PROCESS? && bs[j].kind.PROCESS? ==> bs[i].pid != bs[j].pid
  }

  lemma {:induction false} StartsExact(bs: seq<Block>)
    requires OneBlockPerPid(bs)
    ensures forall i :: 0 <= i < |bs| && bs[i].kind.PROCESS? ==>
      bs[i].pid in Starts(bs) && Starts(bs)[bs[i].pid] == bs[i].start
  {
    if bs != [] {
      var front := bs[..|bs| - 1];
      assert OneBlockPerPid(front);
      StartsExact(front);
      assert forall i :: 0 <= i < |front| ==> bs[i] == front[i];
    }
  }

  lemma {:induction false} KeptIncreasing(bs: seq<Block>, lo: nat, hi: nat)
    requires Tiling(bs, lo, hi)
    ensures forall i, j :: 0 <= i < j < |Kept(bs, false)| ==> Kept(bs, false)[i].start < Kept(bs, false)[j].start
    ensures forall i :: 0 <= i < |Kept(bs, false)| ==> Kept(bs, false)[i].start < hi
  {
    if bs != [] {
      var front, b := bs[..|bs| - 1], bs[|bs| - 1];
      assert bs == front + [b];
      TilingSnoc(front, lo, b);
      KeptIncreasing(front, lo, b.start);
    }
  }
}
