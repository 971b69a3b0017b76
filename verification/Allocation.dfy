// Placement, release and compaction on a partition table.

module Allocation {
  import opened Types
  import opened BlockTable

  datatype Mem = Mem(total: uint32, algorithm: AllocAlgorithm, blocks: seq<Block>)

  ghost predicate MemOk(m: Mem) {
    TableOk(m.blocks, m.total)
  }

  // ----- placement -----

  predicate Fits(b: Block, size: uint32) {
    b.kind.FREE? && b.size >= size
  }

  // Is a candidate a, found first, kept against a later candidate b?
  predicate Prefers(algorithm: AllocAlgorithm, a: Block, b: Block) {
    match algorithm
    case FIRST_FIT => true
    case BEST_FIT => a.size <= b.size
    case WORST_FIT => a.size >= b.size
  }

  // i is a lowest-address block, a smallest or a largest one among those that fit, the lowest address deciding ties.
  ghost predicate IsChoice(bs: seq<Block>, algorithm: AllocAlgorithm, size: uint32, i: nat) {
    && i < |bs|
    && Fits(bs[i], size)
    && forall j :: 0 <= j < |bs| && Fits(bs[j], size) ==>
      match algorithm
      case FIRST_FIT => i <= j
      case BEST_FIT => bs[i].size < bs[j].size || (bs[i].size == bs[j].size && i <= j)
      case WORST_FIT => bs[i].size > bs[j].size || (bs[i].size == bs[j].size && i <= j)
  }

  function Find(bs: seq<Block>, algorithm: AllocAlgorithm, size: uint32): (r: Option<nat>)
    ensures r.Some? ==> IsChoice(bs, algorithm, size, r.value)
    ensures r.None? ==> forall b :: b in bs ==> !Fits(b, size)
  {
    if bs == [] then
      None
    else
      var n := |bs| - 1;
      var best := Find(bs[..n], algorithm, size);
      if Fits(bs[n], size) && (best.None? || !Prefers(algorithm, bs[best.value], bs[n])) then Some(n) else best
  }

  lemma ChoiceUnique(bs: seq<Block>, algorithm: AllocAlgorithm, size: uint32, i: nat, j: nat)
    requires IsChoice(bs, algorithm, size, i) && IsChoice(bs, algorithm, size, j)
    ensures i == j
  {
  }

  // All three policies accept exactly the same requests.
  lemma PoliciesAgree(bs: seq<Block>, a: AllocAlgorithm, b: AllocAlgorithm, size: uint32)
    ensures Find(bs, a, size).Some? <==> Find(bs, b, size).Some?
    ensures Find(bs, a, size).Some? <==> exists x :: x in bs && Fits(x, size)
  {
    var r, s := Find(bs, a, size), Find(bs, b, size);
    if r.Some? {
      assert bs[r.value] in bs;
    }
    if s.Some? {
      assert bs[s.value] in bs;
    }
  }

  // The chosen FREE block becomes the new block, followed by what is left of it.
  function Carve(bs: seq<Block>, i: nat, b: Block): seq<Block>
    requires i < |bs| && b.size <= bs[i].size
  {
    bs[..i] + (Pieces(bs[i], b) + bs[i + 1..])
  }

  // What is left of the chosen block.
  function Remainder(f: Block, size: uint32): Block
    requires size <= f.size
  {
    f.(start := Add32(f.start, size), size := f.size - size)
  }

  // A FREE block of a table can be replaced by blocks that fill its range, the first of them allocated.
  lemma Refill(front: seq<Block>, f: Block, middle: seq<Block>, back: seq<Block>, lo: nat, hi: nat)
    requires Tiling(front + ([f] + back), lo, hi) && Coalesced(front + ([f] + back)) && f.kind.FREE?
    requires Tiling(middle, f.start, End(f)) && Coalesced(middle) && middle != [] && !middle[0].kind.FREE?
    ensures Tiling(front + (middle + back), lo, hi) && Coalesced(front + (middle + back))
  {
    Split(front, [f] + back, lo, hi);
    Split([f], back, f.start, hi);
    if back != [] {
      assert ([f] + back)[1] == back[0];
    }
    Join(middle, back, f.start, End(f), hi);
    Join(front, middle + back, lo, f.start, hi);
  }

  function Pieces(f: Block, b: Block): seq<Block>
    requires b.size <= f.size
  {
    if f.size == b.size then [b] else [b, Remainder(f, b.size)]
  }

  lemma CarveTiling(bs: seq<Block>, total: nat, i: nat, b: Block)
    requires Tiling(bs, 0, total) && Coalesced(bs)
    requires i < |bs| && bs[i].kind.FREE? && End(bs[i]) < 0x1_0000_0000
    requires 0 < b.size <= bs[i].size && b.start == bs[i].start && !b.kind.FREE?
    ensures Tiling(Carve(bs, i, b), 0, total) && Coalesced(Carve(bs, i, b))
  {
    var pieces := Pieces(bs[i], b);
    assert Tiling(pieces, b.start, End(bs[i])) && Coalesced(pieces);
    assert bs == bs[..i] + ([bs[i]] + bs[i + 1..]);
    Refill(bs[..i], bs[i], pieces, bs[i + 1..], 0, total);
  }

  lemma CarveMembers(bs: seq<Block>, i: nat, b: Block)
    requires i < |bs| && bs[i].kind.FREE? && End(bs[i]) < 0x1_0000_0000 && b.size <= bs[i].size && !b.kind.FREE?
    ensures CleanFree(bs) ==> CleanFree(Carve(bs, i, b))
    ensures Unowned(bs) ==> Unowned(Carve(bs, i, b))
    ensures forall x :: Allocated(Carve(bs, i, b), x) <==> Allocated(bs, x) || x == b
  {
    var c := Carve(bs, i, b);
    var front, pieces, back := bs[..i], Pieces(bs[i], b), bs[i + 1..];
    assert bs == front + [bs[i]] + back && pieces[0] == b;
    assert forall x :: x in pieces ==> x == b || x == Remainder(bs[i], b.size);
    assert forall x :: x in c <==> x in front || x in pieces || x in back;
    assert forall x :: x in bs <==> x in front || x == bs[i] || x in back;
  }

  // Carving keeps the table in order, and sorting it then changes nothing.
  lemma CarveTable(bs: seq<Block>, total: nat, i: nat, b: Block)
    requires ValidTable(bs, total) && Coalesced(bs) && i < |bs| && bs[i].kind.FREE?
    requires 0 < b.size <= bs[i].size && b.start == bs[i].start && !b.kind.FREE?
    ensures ValidTable(Carve(bs, i, b), total) && Coalesced(Carve(bs, i, b))
    ensures CleanFree(bs) ==> CleanFree(Carve(bs, i, b))
    ensures SortByStart(Carve(bs, i, b)) == Carve(bs, i, b)
    ensures forall x :: Allocated(Carve(bs, i, b), x) <==> Allocated(bs, x) || x == b
  {
    Disjoint(bs, 0, total);
    CarveTiling(bs, total, i, b);
    CarveMembers(bs, i, b);
    TilingIsSorted(Carve(bs, i, b), 0, total);
  }

  function AllocateMem(m: Mem, owner: Text, pid: uint32, tag: Text, size: uint32, kind: BlockKind)
    : (r: Option<(Mem, uint32)>)
  {
    if owner == [] || size == 0 then
      None
    else
      var i :- Find(m.blocks, m.algorithm, size);
      var start := m.blocks[i].start;
      Some((m.(blocks := SortByStart(Carve(m.blocks, i, Block(start, size, kind, pid, owner, tag)))), start))
  }

  // An allocation adds one block of the size asked for, in range.
  lemma AllocateAdds(m: Mem, owner: Text, pid: uint32, tag: Text, size: uint32, kind: BlockKind)
    requires MemOk(m) && !kind.FREE?
    ensures
      match AllocateMem(m, owner, pid, tag, size, kind)
      case None => owner == [] || size == 0 || forall b :: b in m.blocks ==> !Fits(b, size)
      case Some((m', start)) =>
        && MemOk(m') && m'.total == m.total && m'.algorithm == m.algorithm
        && owner != [] && size > 0 && start + size <= m.total
        && forall x :: Allocated(m'.blocks, x) <==>
          Allocated(m.blocks, x) || x == Block(start, size, kind, pid, owner, tag)
  {
    var r := AllocateMem(m, owner, pid, tag, size, kind);
    if r.Some? {
      var (m', start) := r.value;
      var i := Find(m.blocks, m.algorithm, size).value;
      CarveTable(m.blocks, m.total, i, Block(start, size, kind, pid, owner, tag));
      Disjoint(m.blocks, 0, m.total);
    }
  }

  // On the address map an allocation changes the returned range and nothing else, and that range was free.
  lemma AllocateRefinesMap(m: Mem, owner: Text, pid: uint32, tag: Text, size: uint32, kind: BlockKind, addr: nat)
    requires MemOk(m) && !kind.FREE?
    ensures
      match AllocateMem(m, owner, pid, tag, size, kind)
      case None => true
      case Some((m', start)) =>
        if start <= addr < start + size then
          At(m.blocks, addr) == None && At(m'.blocks, addr) == Some(Block(start, size, kind, pid, owner, tag))
        else
          At(m'.blocks, addr) == At(m.blocks, addr)
  {
    AllocateAdds(m, owner, pid, tag, size, kind);
    var r := AllocateMem(m, owner, pid, tag, size, kind);
    if r.Some? {
      var (m', start) := r.value;
      var i := Find(m.blocks, m.algorithm, size).value;
      var placed := Block(start, size, kind, pid, owner, tag);
      assert Allocated(m'.blocks, placed);
      if start <= addr < start + size {
        AtIs(m.blocks, 0, m.total, m.blocks[i], addr);
        AtIs(m'.blocks, 0, m.total, placed, addr);
      } else {
        AtAfterAdding(m.blocks, m'.blocks, m.total, placed, addr);
      }
    }
  }

  lemma AtAfterAdding(before: seq<Block>, after: seq<Block>, total: nat, b: Block, addr: nat)
    requires Tiling(before, 0, total) && Tiling(after, 0, total) && !Holds(b, addr)
    requires forall x :: Allocated(after, x) <==> Allocated(before, x) || x == b
    ensures At(after, addr) == At(before, addr)
  {
    assert forall y :: y in after && Holds(y, addr) ==> Allocated(after, y) && Allocated(before, y);
    if x :| x in before && Holds(x, addr) {
      assert Allocated(before, x);
      assert Allocated(after, x);
      AtIs(before, 0, total, x, addr);
      AtIs(after, 0, total, x, addr);
    }
  }

  // ----- release -----

  function Cleared(b: Block, gone: set<Block>): Block {
    if b in gone then FreeBlock(b.start, b.size) else b
  }

  function Marked(bs: seq<Block>, gone: set<Block>): seq<Block> {
    seq(|bs|, i requires 0 <= i < |bs| => Cleared(bs[i], gone))
  }

  function Release(bs: seq<Block>, gone: set<Block>): seq<Block> {
    Merge(Marked(bs, gone))
  }

  lemma MarkedTable(bs: seq<Block>, lo: nat, hi: nat, gone: set<Block>)
    requires Tiling(bs, lo, hi)
    ensures Tiling(Marked(bs, gone), lo, hi)
    ensures (CleanFree(bs) ==> CleanFree(Marked(bs, gone))) && (Unowned(bs) ==> Unowned(Marked(bs, gone)))
    ensures forall x :: Allocated(Marked(bs, gone), x) <==> Allocated(bs, x) && x !in gone
  {
    var s := Marked(bs, gone);
    forall x ensures Allocated(s, x) <==> Allocated(bs, x) && x !in gone {
      if Allocated(bs, x) && x !in gone {
        var i :| 0 <= i < |bs| && bs[i] == x;
        assert s[i] == x;
      }
    }
    forall x | x in s && x.kind.FREE? ensures x in bs || x == FreeBlock(x.start, x.size) {
      var i :| 0 <= i < |s| && s[i] == x;
      assert bs[i] in bs;
    }
  }

  // Releasing blocks keeps the table valid, coalesces it, and takes exactly those blocks away.
  lemma ReleaseValid(bs: seq<Block>, total: nat, gone: set<Block>)
    requires ValidTable(bs, total)
    ensures ValidTable(Release(bs, gone), total) && Coalesced(Release(bs, gone))
    ensures CleanFree(bs) ==> CleanFree(Release(bs, gone))
    ensures forall x :: Allocated(Release(bs, gone), x) <==> Allocated(bs, x) && x !in gone
  {
    MarkedTable(bs, 0, total, gone);
    MergeTable(Marked(bs, gone), 0, total);
    assert SameAllocations(Marked(bs, gone), Release(bs, gone));
  }

  // Releasing blocks keeps the table well formed and takes exactly those blocks away.
  lemma ReleaseTable(bs: seq<Block>, total: nat, gone: set<Block>)
    requires TableOk(bs, total)
    ensures TableOk(Release(bs, gone), total)
    ensures forall x :: Allocated(Release(bs, gone), x) <==> Allocated(bs, x) && x !in gone
  {
    ReleaseValid(bs, total, gone);
  }

  // On the address map, a release changes the released ranges and nothing else.
  lemma ReleaseRefinesMap(bs: seq<Block>, total: nat, gone: set<Block>, addr: nat)
    requires ValidTable(bs, total)
    ensures At(Release(bs, gone), addr) ==
      if At(bs, addr).Some? && At(bs, addr).value !in gone then At(bs, addr) else None
  {
    var after := Release(bs, gone);
    ReleaseValid(bs, total, gone);
    assert forall y :: y in after && Holds(y, addr) ==> Allocated(after, y) && Allocated(bs, y) && y !in gone;
    if y :| y in after && Holds(y, addr) {
      assert Allocated(bs, y);
      AtIs(bs, 0, total, y, addr);
      AtIs(after, 0, total, y, addr);
    } else if At(bs, addr).Some? {
      assert Allocated(bs, At(bs, addr).value);
    }
  }

  // Freeing in two goes, with coalescing after each, is freeing once.
  lemma ReleaseTwice(bs: seq<Block>, total: nat, g: set<Block>, h: set<Block>)
    requires TableOk(bs, total)
    ensures Release(Release(bs, g), h) == Release(bs, g + h)
  {
    ReleaseTable(bs, total, g);
    ReleaseTable(Release(bs, g), total, h);
    ReleaseTable(bs, total, g + h);
    var a, b := Release(Release(bs, g), h), Release(bs, g + h);
    assert SameAllocations(a, b) by {
      forall x ensures Allocated(a, x) <==> Allocated(b, x) {
        assert Allocated(Release(bs, g), x) <==> Allocated(bs, x) && x !in g;
      }
    }
    Canonical(a, b, 0, total);
  }

  // Releasing nothing changes nothing.
  lemma ReleaseNothing(bs: seq<Block>, total: nat, gone: set<Block>)
    requires TableOk(bs, total) && forall b :: Allocated(bs, b) ==> b !in gone
    ensures Release(bs, gone) == bs
  {
    ReleaseTable(bs, total, gone);
    assert SameAllocations(Release(bs, gone), bs);
    Canonical(Release(bs, gone), bs, 0, total);
  }

  // Freeing what was just allocated gives back the very same table.
  lemma ReleaseUndoesAllocate(m: Mem, owner: Text, pid: uint32, tag: Text, size: uint32, kind: BlockKind)
    requires MemOk(m) && !kind.FREE?
    ensures
      match AllocateMem(m, owner, pid, tag, size, kind)
      case None => true
      case Some((m', start)) =>
        m'.(blocks := Release(m'.blocks, {Block(start, size, kind, pid, owner, tag)})) == m
  {
    var r := AllocateMem(m, owner, pid, tag, size, kind);
    if r.Some? {
      var (m', start) := r.value;
      var placed := Block(start, size, kind, pid, owner, tag);
      var i := Find(m.blocks, m.algorithm, size).value;
      AllocateAdds(m, owner, pid, tag, size, kind);
      ReleaseTable(m'.blocks, m.total, {placed});
      var back := Release(m'.blocks, {placed});
      assert !Allocated(m.blocks, placed) by {
        if Allocated(m.blocks, placed) {
          SameStart(m.blocks, 0, m.total, placed, m.blocks[i], start);
        }
      }
      assert SameAllocations(back, m.blocks) by {
        forall x ensures Allocated(back, x) <==> Allocated(m.blocks, x) {
          assert Allocated(m'.blocks, x) <==> Allocated(m.blocks, x) || x == placed;
        }
      }
      Canonical(back, m.blocks, 0, m.total);
    }
  }

  // The blocks of a user's processes with the given pids.
  function BlocksOf(bs: seq<Block>, owner: Text, pids: set<uint32>): set<Block> {
    set b | b in bs && b.kind.PROCESS? && b.owner == owner && b.pid in pids
  }

  // ----- release as the code does it, on any table -----

  // One block becomes FREE, and the table is sorted and coalesced.
  function FreeAt(bs: seq<Block>, i: nat): seq<Block>
    requires i < |bs|
  {
    Normalized(bs[i := FreeBlock(bs[i].start, bs[i].size)])
  }

  predicate IsProcessBlock(b: Block, owner: Text, pid: uint32) {
    b.kind.PROCESS? && b.owner == owner && b.pid == pid
  }

  // The first process block of a user's pid.
  function FirstOfPid(bs: seq<Block>, owner: Text, pid: uint32): (r: Option<nat>)
    ensures r.Some? ==> r.value < |bs| && IsProcessBlock(bs[r.value], owner, pid)
    ensures r.Some? ==> forall j :: 0 <= j < r.value ==> !IsProcessBlock(bs[j], owner, pid)
    ensures r.None? ==> forall j :: 0 <= j < |bs| ==> !IsProcessBlock(bs[j], owner, pid)
  {
    if bs == [] then None
    else
      var n := |bs| - 1;
      var before := FirstOfPid(bs[..n], owner, pid);
      if before.Some? then before else if IsProcessBlock(bs[n], owner, pid) then Some(n) else None
  }

  function FreeFirst(bs: seq<Block>, owner: Text, pid: uint32): seq<Block> {
    var r := FirstOfPid(bs, owner, pid);
    if r.Some? then FreeAt(bs, r.value) else bs
  }

  // Pid by pid, coalescing each time.
  function FreeEach(bs: seq<Block>, owner: Text, pids: seq<uint32>): seq<Block> {
    if pids == [] then bs
    else FreeFirst(FreeEach(bs, owner, pids[..|pids| - 1]), owner, pids[|pids| - 1])
  }

  // The first block that starts at an address, if the user owns it and it is neither FREE nor a process block.
  function FreeAddress(m: Mem, owner: Text, addr: uint32): Option<Mem> {
    var i :- FirstAt(m.blocks, addr);
    var b := m.blocks[i];
    if b.kind.FREE? || b.owner != owner || b.kind.PROCESS? then None else Some(m.(blocks := FreeAt(m.blocks, i)))
  }

  function FirstAt(bs: seq<Block>, addr: uint32): (r: Option<nat>)
    ensures r.Some? ==> r.value < |bs| && bs[r.value].start == addr
    ensures r.Some? ==> forall j :: 0 <= j < r.value ==> bs[j].start != addr
    ensures r.None? ==> forall j :: 0 <= j < |bs| ==> bs[j].start != addr
  {
    if bs == [] then None
    else
      var n := |bs| - 1;
      var before := FirstAt(bs[..n], addr);
      if before.Some? then before else if bs[n].start == addr then Some(n) else None
  }

  // On a tiling, freeing one block is releasing it.
  lemma FreeAtIsRelease(bs: seq<Block>, total: nat, i: nat)
    requires ValidTable(bs, total) && i < |bs|
    ensures FreeAt(bs, i) == Release(bs, {bs[i]})
  {
    MarkOne(bs, total, i);
    MarkedTable(bs, 0, total, {bs[i]});
    TilingIsSorted(Marked(bs, {bs[i]}), 0, total);
  }

  lemma MarkOne(bs: seq<Block>, total: nat, i: nat)
    requires Tiling(bs, 0, total) && i < |bs|
    ensures bs[i := FreeBlock(bs[i].start, bs[i].size)] == Marked(bs, {bs[i]})
  {
    forall j | 0 <= j < |bs| && j != i ensures bs[j] != bs[i] {
      Ordered(bs, 0, total, if i < j then i else j, if i < j then j else i);
    }
  }

  // No pid has two process blocks.
  ghost predicate UniquePids(bs: seq<Block>) {
    forall b, c :: b in bs && c in bs && b.kind.PROCESS? && c.kind.PROCESS? && b.pid == c.pid ==> b == c
  }

  ghost predicate Freed(b: Block, owner: Text, pids: seq<uint32>) {
    b.kind.PROCESS? && b.owner == owner && b.pid in pids
  }

  // Freeing pid by pid keeps the table valid and takes away exactly the user's blocks of those pids.
  lemma {:induction false} FreeEachValid(bs: seq<Block>, total: nat, owner: Text, pids: seq<uint32>)
    requires ValidTable(bs, total) && UniquePids(bs)
    ensures var after := FreeEach(bs, owner, pids);
      && ValidTable(after, total) && UniquePids(after)
      && (Coalesced(bs) ==> Coalesced(after)) && (CleanFree(bs) ==> CleanFree(after))
      && forall x :: Allocated(after, x) <==> Allocated(bs, x) && !Freed(x, owner, pids)
  {
    if pids != [] {
      var n := |pids| - 1;
      assert pids == pids[..n] + [pids[n]];
      FreeEachValid(bs, total, owner, pids[..n]);
      FreeFirstValid(FreeEach(bs, owner, pids[..n]), total, owner, pids[n]);
    }
  }

  lemma FreeFirstValid(bs: seq<Block>, total: nat, owner: Text, pid: uint32)
    requires ValidTable(bs, total) && UniquePids(bs)
    ensures var after := FreeFirst(bs, owner, pid);
      && ValidTable(after, total) && UniquePids(after)
      && (Coalesced(bs) ==> Coalesced(after)) && (CleanFree(bs) ==> CleanFree(after))
      && forall x :: Allocated(after, x) <==> Allocated(bs, x) && !IsProcessBlock(x, owner, pid)
  {
    var r := FirstOfPid(bs, owner, pid);
    if r.Some? {
      FreeAtIsRelease(bs, total, r.value);
      ReleaseValid(bs, total, {bs[r.value]});
      forall x ensures Allocated(FreeFirst(bs, owner, pid), x) <==> Allocated(bs, x) && !IsProcessBlock(x, owner, pid) {
        assert Allocated(Release(bs, {bs[r.value]}), x) <==> Allocated(bs, x) && x != bs[r.value];
      }
      KeepsUniquePids(bs, FreeFirst(bs, owner, pid));
    }
  }

  lemma KeepsUniquePids(bs: seq<Block>, after: seq<Block>)
    requires UniquePids(bs) && forall x :: Allocated(after, x) ==> Allocated(bs, x)
    ensures UniquePids(after)
  {
    forall b, c | b in after && c in after && b.kind.PROCESS? && c.kind.PROCESS? && b.pid == c.pid ensures b == c {
      assert Allocated(after, b) && Allocated(after, c);
      assert Allocated(bs, b) && Allocated(bs, c);
    }
  }

  // On a well-formed table, freeing pid by pid is freeing all the blocks at once.
  lemma FreeEachIsRelease(bs: seq<Block>, total: nat, owner: Text, pids: seq<uint32>, dead: set<uint32>)
    requires TableOk(bs, total) && UniquePids(bs) && forall p :: p in pids <==> p in dead
    ensures FreeEach(bs, owner, pids) == Release(bs, BlocksOf(bs, owner, dead))
  {
    var gone := BlocksOf(bs, owner, dead);
    FreeEachValid(bs, total, owner, pids);
    ReleaseTable(bs, total, gone);
    forall x ensures Allocated(FreeEach(bs, owner, pids), x) <==> Allocated(Release(bs, gone), x) {
      assert Allocated(bs, x) ==> (Freed(x, owner, pids) <==> x in gone);
    }
    Canonical(FreeEach(bs, owner, pids), Release(bs, gone), 0, total);
  }

  lemma FreeFirstIsRelease(bs: seq<Block>, total: nat, owner: Text, pid: uint32)
    requires TableOk(bs, total) && UniquePids(bs)
    ensures FreeFirst(bs, owner, pid) == Release(bs, BlocksOf(bs, owner, {pid}))
    ensures FirstOfPid(bs, owner, pid).None? <==> BlocksOf(bs, owner, {pid}) == {}
  {
    assert [pid][..0] == [];
    assert FreeEach(bs, owner, [pid]) == FreeFirst(bs, owner, pid);
    FreeEachIsRelease(bs, total, owner, [pid], {pid});
    var r := FirstOfPid(bs, owner, pid);
    if r.Some? {
      assert bs[r.value] in BlocksOf(bs, owner, {pid});
    }
  }

  // What free_mem does to a valid table: the block that starts at the address, if the user owns it and it is not a
  // process block, is released.
  ghost function FreeMem(m: Mem, owner: Text, addr: uint32): Option<Mem> {
    match At(m.blocks, addr)
    case Some(b) =>
      if b.start == addr && b.owner == owner && !b.kind.PROCESS? then
        Some(m.(blocks := Release(m.blocks, {b})))
      else
        None
    case None => None
  }

  lemma FreeAddressIsFreeMem(m: Mem, owner: Text, addr: uint32)
    requires ValidTable(m.blocks, m.total)
    ensures FreeAddress(m, owner, addr) == FreeMem(m, owner, addr)
  {
    var r := FirstAt(m.blocks, addr);
    if r.Some? {
      var b := m.blocks[r.value];
      AtIs(m.blocks, 0, m.total, b, addr);
      FreeAtIsRelease(m.blocks, m.total, r.value);
    } else {
      assert forall b :: b in m.blocks ==> b.start != addr;
    }
  }
}
