// The memory manager: a block table that its operations update in place.

module MemoryManagers {
  import opened Types
  import opened BlockTable
  import opened Allocation
  import opened Compaction

  class MemoryManager {
    var totalMemoryKB: uint32
    var algorithm: AllocAlgorithm
    var blocks: seq<Block>

    ghost function View(): Mem
      reads this
    {
      Mem(totalMemoryKB, algorithm, blocks)
    }

    constructor ()
      ensures View() == Mem(1024, FIRST_FIT, [FreeBlock(0, 1024)])
    {
      totalMemoryKB := 1024;
      algorithm := FIRST_FIT;
      blocks := [FreeBlock(0, 1024)];
    }

    method FindFreeBlock(sizeKB: uint32) returns (best: Option<nat>)
      ensures best == Find(blocks, algorithm, sizeKB)
    {
      best := None;
      for i := 0 to |blocks|
        invariant best == Find(blocks[..i], algorithm, sizeKB)
        invariant algorithm.FIRST_FIT? ==> best.None?
      {
        assert blocks[..i + 1][..i] == blocks[..i];
        if Fits(blocks[i], sizeKB) {
          if algorithm.FIRST_FIT? {
            assert forall j :: 0 <= j < i ==> blocks[j] in blocks[..i];
            ghost var r := Find(blocks, algorithm, sizeKB);
            assert blocks[i] in blocks;
            ChoiceUnique(blocks, algorithm, sizeKB, i, r.value);
            return Some(i);
          }
          if best.None? || !Prefers(algorithm, blocks[best.value], blocks[i]) {
            best := Some(i);
          }
        }
      }
      assert blocks[..|blocks|] == blocks;
    }

    method Allocate(owner: Text, pid: uint32, tag: Text, sizeKB: uint32, kind: BlockKind)
      returns (start: Option<uint32>)
      modifies this`blocks
      ensures
        match AllocateMem(old(View()), owner, pid, tag, sizeKB, kind)
        case None => start == None && View() == old(View())
        case Some((m, s)) => start == Some(s) && View() == m
    {
      if owner == [] || sizeKB == 0 {
        return None;
      }
      var it := FindFreeBlock(sizeKB);
      if it.None? {
        return None;
      }
      var at := blocks[it.value].start;
      CarveAt(it.value, Block(at, sizeKB, kind, pid, owner, tag));
      start := Some(at);
    }

    // Overwrite the chosen FREE block, or shrink it and insert before it; then sort.
    method CarveAt(i: nat, taken: Block)
      requires i < |blocks| && taken.size <= blocks[i].size
      modifies this`blocks
      ensures blocks == SortByStart(Carve(old(blocks), i, taken))
    {
      var free := blocks[i];
      if free.size == taken.size {
        blocks := blocks[i := taken];
      } else {
        ghost var was := blocks;
        blocks := blocks[i := free.(start := Add32(free.start, taken.size), size := free.size - taken.size)];
        assert blocks[i..] == [Remainder(free, taken.size)] + was[i + 1..];
        blocks := blocks[..i] + [taken] + blocks[i..];
      }
      assert blocks == Carve(old(blocks), i, taken);
      blocks := SortByStart(blocks);
    }

    method MergeFreeBlocks()
      modifies this`blocks
      ensures blocks == Normalized(old(blocks))
    {
      blocks := SortByStart(blocks);
      var merged: seq<Block> := [];
      for i := 0 to |blocks|
        invariant merged == Merge(blocks[..i])
      {
        var block := blocks[i];
        assert blocks[..i + 1][..i] == blocks[..i];
        if merged != [] && merged[|merged| - 1].kind.FREE? && block.kind.FREE? &&
           Add32(merged[|merged| - 1].start, merged[|merged| - 1].size) == block.start
        {
          var back := merged[|merged| - 1];
          merged := merged[|merged| - 1 := back.(size := Add32(back.size, block.size))];
        } else {
          merged := merged + [block];
        }
      }
      assert blocks[..|blocks|] == blocks;
      blocks := merged;
    }

    method FreeByAddress(owner: Text, addr: uint32) returns (ok: bool)
      modifies this`blocks
      ensures
        match FreeAddress(old(View()), owner, addr)
        case None => !ok && View() == old(View())
        case Some(m) => ok && View() == m
    {
      var i := 0;
      while i < |blocks| && blocks[i].start != addr
        invariant i <= |blocks|
        invariant forall j :: 0 <= j < i ==> blocks[j].start != addr
      {
        i := i + 1;
      }
      if i == |blocks| {
        return false;
      }
      var it := blocks[i];
      if it.kind.FREE? || it.owner != owner || it.kind.PROCESS? {
        return false;
      }
      blocks := blocks[i := FreeBlock(it.start, it.size)];
      MergeFreeBlocks();
      ok := true;
    }

    // freeByPid and swapOutProcess: release the first process block of a user's pid.
    method FreeByPid(owner: Text, pid: uint32) returns (ok: bool)
      modifies this`blocks
      ensures ok <==> FirstOfPid(old(blocks), owner, pid).Some?
      ensures blocks == FreeFirst(old(blocks), owner, pid)
    {
      var i := 0;
      while i < |blocks| && !(blocks[i].kind.PROCESS? && blocks[i].owner == owner && blocks[i].pid == pid)
        invariant i <= |blocks|
        invariant forall j :: 0 <= j < i ==> !IsProcessBlock(blocks[j], owner, pid)
      {
        i := i + 1;
      }
      if i == |blocks| {
        return false;
      }
      blocks := blocks[i := FreeBlock(blocks[i].start, blocks[i].size)];
      MergeFreeBlocks();
      ok := true;
    }

    method Compact() returns (pidNewStart: map<uint32, uint32>)
      modifies this`blocks
      ensures blocks == Compacted(old(blocks), totalMemoryKB) && pidNewStart == Starts(blocks)
    {
      var taken := TakeAllocated();
      var cursor: uint32;
      blocks, cursor, pidNewStart := SlideDown(taken);
      if cursor < totalMemoryKB {
        StartsOfFree(blocks, FreeBlock(cursor, totalMemoryKB - cursor));
        blocks := blocks + [FreeBlock(cursor, totalMemoryKB - cursor)];
      }
      if blocks == [] {
        StartsOfFree(blocks, FreeBlock(0, totalMemoryKB));
        blocks := blocks + [FreeBlock(0, totalMemoryKB)];
      }
    }

    method TakeAllocated() returns (taken: seq<Block>)
      ensures taken == Kept(blocks, false)
    {
      taken := [];
      for i := 0 to |blocks|
        invariant taken == Kept(blocks[..i], false)
      {
        assert blocks[..i + 1][..i] == blocks[..i];
        if !blocks[i].kind.FREE? {
          taken := taken + [blocks[i]];
        }
      }
      assert blocks[..|blocks|] == blocks;
    }

    // The moving loop of compact.
    method SlideDown(kept: seq<Block>)
      returns (taken: seq<Block>, cursor: uint32, pidNewStart: map<uint32, uint32>)
      ensures taken == Slide(kept) && cursor == Sum32(kept) && pidNewStart == Starts(taken)
    {
      taken, cursor, pidNewStart := kept, 0, map[];
      for i := 0 to |kept|
        invariant |taken| == |kept| && forall j :: i <= j < |kept| ==> taken[j] == kept[j]
        invariant cursor == Sum32(kept[..i])
        invariant taken[..i] == Slide(kept[..i])
        invariant pidNewStart == Starts(taken[..i])
      {
        assert kept[..i + 1][..i] == kept[..i];
        ghost var before := taken;
        taken := taken[i := taken[i].(start := cursor)];
        assert taken[..i + 1][..i] == before[..i];
        cursor := Add32(cursor, taken[i].size);
        if taken[i].kind.PROCESS? {
          pidNewStart := pidNewStart[taken[i].pid := taken[i].start];
        }
      }
      assert taken[..|taken|] == taken && kept[..|kept|] == kept;
    }

    method UsedMemoryKB() returns (used: uint32)
      ensures used == Sum32(Kept(blocks, false))
    {
      used := TotalOf(false);
    }

    method FreeMemoryKB() returns (free: uint32)
      ensures free == Sum32(Kept(blocks, true))
    {
      free := TotalOf(true);
    }

    // The counting loop of both totals.
    method TotalOf(free: bool) returns (sum: uint32)
      ensures sum == Sum32(Kept(blocks, free))
    {
      sum := 0;
      for i := 0 to |blocks|
        invariant sum == Sum32(Kept(blocks[..i], free))
      {
        assert blocks[..i + 1][..i] == blocks[..i];
        if blocks[i].kind.FREE? == free {
          sum := Add32(sum, blocks[i].size);
        }
      }
      assert blocks[..|blocks|] == blocks;
    }

    method ValidateBlocks() returns (ok: bool)
      ensures ok <==> ValidTable(blocks, totalMemoryKB)
    {
      if totalMemoryKB == 0 || blocks == [] {
        return false;
      }
      var expectedStart: uint32 := 0;
      for i := 0 to |blocks|
        invariant Tiling(blocks[..i], 0, expectedStart)
        invariant forall b :: b in blocks[..i] && b.kind.FREE? ==> b.pid == 0 && b.owner == []
        invariant expectedStart <= totalMemoryKB
      {
        var block := blocks[i];
        if ValidTable(blocks, totalMemoryKB) {
          Disjoint(blocks, 0, totalMemoryKB);
          assert block in blocks;
          StartOf(blocks, i, expectedStart, totalMemoryKB);
        }
        if block.size == 0 || block.start != expectedStart {
          return false;
        }
        if block.size > totalMemoryKB || block.start > totalMemoryKB - block.size {
          return false;
        }
        if block.kind.FREE? && (block.pid != 0 || block.owner != []) {
          return false;
        }
        assert blocks[..i + 1] == blocks[..i] + [block];
        TilingSnoc(blocks[..i], 0, block);
        expectedStart := block.start + block.size;
      }
      assert blocks[..|blocks|] == blocks;
      ok := expectedStart == totalMemoryKB;
    }

    method SetTotalMemoryKB(total: uint32)
      modifies this`totalMemoryKB
      ensures totalMemoryKB == total
    {
      totalMemoryKB := total;
    }

    method SetAlgorithm(a: AllocAlgorithm)
      modifies this`algorithm
      ensures algorithm == a
    {
      algorithm := a;
    }

    method ImportBlocks(bs: seq<Block>)
      modifies this`blocks
      ensures blocks == Normalized(bs)
    {
      blocks := bs;
      MergeFreeBlocks();
    }
  }

  lemma StartsOfFree(bs: seq<Block>, f: Block)
    requires f.kind.FREE?
    ensures Starts(bs + [f]) == Starts(bs)
  {
    assert (bs + [f])[..|bs|] == bs;
  }

  // In a tiling a block starts where the blocks before it end.
  lemma StartOf(bs: seq<Block>, i: nat, end: nat, total: nat)
    requires Tiling(bs, 0, total) && i < |bs| && Tiling(bs[..i], 0, end)
    ensures bs[i].start == end
  {
    if i > 0 {
      assert bs[..i][i - 1] == bs[i - 1];
    }
  }
}
