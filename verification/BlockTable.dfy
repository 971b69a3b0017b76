// The dynamic-partition table as a value: tilings, coalescing, and the map from addresses to allocations that
// the table stands for.

module BlockTable {
  import opened Types

  function End(b: Block): nat {
    b.start + b.size
  }

  function FreeBlock(start: uint32, size: uint32): Block {
    Block(start, size, FREE, 0, [], [])
  }

  // The blocks are nonempty and follow one another from lo to hi without a gap.
  ghost predicate Tiling(bs: seq<Block>, lo: nat, hi: nat) {
    && (if bs == [] then lo == hi else bs[0].start == lo && End(bs[|bs| - 1]) == hi)
    && (forall i :: 0 <= i < |bs| ==> bs[i].size > 0)
    && (forall i :: 0 < i < |bs| ==> End(bs[i - 1]) == bs[i].start)
  }

  ghost predicate Coalesced(bs: seq<Block>) {
    forall i :: 0 < i < |bs| ==> !(bs[i - 1].kind.FREE? && bs[i].kind.FREE?)
  }

  ghost predicate CleanFree(bs: seq<Block>) {
    forall b :: b in bs && b.kind.FREE? ==> b == FreeBlock(b.start, b.size)
  }

  // FREE blocks belong to nobody; what tag they carry is left open.
  ghost predicate Unowned(bs: seq<Block>) {
    forall b :: b in bs && b.kind.FREE? ==> b.pid == 0 && b.owner == []
  }

  // What validateBlocks checks for.
  ghost predicate ValidTable(bs: seq<Block>, total: nat) {
    0 < total < 0x1_0000_0000 && Tiling(bs, 0, total) && Unowned(bs)
  }

  // What every table of a kernel that started clean satisfies.
  ghost predicate TableOk(bs: seq<Block>, total: nat) {
    0 < total < 0x1_0000_0000 && Tiling(bs, 0, total) && Coalesced(bs) && CleanFree(bs)
  }

  ghost predicate Allocated(bs: seq<Block>, b: Block) {
    b in bs && !b.kind.FREE?
  }

  ghost predicate SameAllocations(a: seq<Block>, b: seq<Block>) {
    forall x :: Allocated(a, x) <==> Allocated(b, x)
  }

  // ----- the address map -----

  ghost predicate Holds(b: Block, addr: nat) {
    !b.kind.FREE? && b.start <= addr < End(b)
  }

  // The allocation that owns an address, if any.
  ghost function At(bs: seq<Block>, addr: nat): Option<Block> {
    if exists b :: b in bs && Holds(b, addr) then
      var b :| b in bs && Holds(b, addr);
      Some(b)
    else
      None
  }

  // ----- order in a tiling -----

  lemma {:induction false} Ordered(bs: seq<Block>, lo: nat, hi: nat, i: nat, j: nat)
    requires Tiling(bs, lo, hi) && i < j < |bs|
    ensures End(bs[i]) <= bs[j].start
    decreases j
  {
    if i + 1 < j {
      Ordered(bs, lo, hi, i, j - 1);
    }
  }

  // Blocks of a tiling stay inside it and do not overlap.
  lemma Disjoint(bs: seq<Block>, lo: nat, hi: nat)
    requires Tiling(bs, lo, hi)
    ensures forall i, j :: 0 <= i < j < |bs| ==> End(bs[i]) <= bs[j].start
    ensures forall i :: 0 <= i < |bs| ==> lo <= bs[i].start && End(bs[i]) <= hi
  {
    forall i, j | 0 <= i < j < |bs| ensures End(bs[i]) <= bs[j].start {
      Ordered(bs, lo, hi, i, j);
    }
  }

  lemma SameStart(bs: seq<Block>, lo: nat, hi: nat, a: Block, b: Block, addr: nat)
    requires Tiling(bs, lo, hi) && a in bs && b in bs
    requires a.start <= addr < End(a) && b.start <= addr < End(b)
    ensures a == b
  {
    var i :| 0 <= i < |bs| && bs[i] == a;
    var j :| 0 <= j < |bs| && bs[j] == b;
    if i < j {
      Ordered(bs, lo, hi, i, j);
    } else if j < i {
      Ordered(bs, lo, hi, j, i);
    }
  }

  // At reads the one block that covers the address.
  lemma AtIs(bs: seq<Block>, lo: nat, hi: nat, b: Block, addr: nat)
    requires Tiling(bs, lo, hi) && b in bs && b.start <= addr < End(b)
    ensures At(bs, addr) == if b.kind.FREE? then None else Some(b)
  {
    forall c | c in bs && Holds(c, addr) ensures c == b {
      SameStart(bs, lo, hi, b, c, addr);
    }
    if !b.kind.FREE? {
      assert Holds(b, addr);
    }
  }

  // Tables with the same allocated blocks stand for the same address map.
  lemma SameMap(a: seq<Block>, b: seq<Block>, hi: nat)
    requires Tiling(a, 0, hi) && Tiling(b, 0, hi) && SameAllocations(a, b)
    ensures forall addr: nat :: At(a, addr) == At(b, addr)
  {
    forall addr: nat ensures At(a, addr) == At(b, addr) {
      assert forall y :: y in b && Holds(y, addr) ==> Allocated(b, y) && Allocated(a, y);
      if x :| x in a && Holds(x, addr) {
        assert Allocated(a, x);
        assert Allocated(b, x);
        AtIs(a, 0, hi, x, addr);
        AtIs(b, 0, hi, x, addr);
      }
    }
  }

  // ----- cutting and joining -----

  lemma Split(a: seq<Block>, b: seq<Block>, lo: nat, hi: nat)
    requires Tiling(a + b, lo, hi) && Coalesced(a + b)
    ensures var mid := if b == [] then hi else b[0].start; Tiling(a, lo, mid) && Tiling(b, mid, hi)
    ensures Coalesced(a) && Coalesced(b)
  {
    var s := a + b;
    assert forall i :: 0 <= i < |a| ==> a[i] == s[i];
    assert forall i :: 0 <= i < |b| ==> b[i] == s[|a| + i];
    if b == [] {
      assert s == a;
    } else {
      assert s[|s| - 1] == b[|b| - 1];
    }
  }

  lemma Join(a: seq<Block>, b: seq<Block>, lo: nat, mid: nat, hi: nat)
    requires Tiling(a, lo, mid) && Tiling(b, mid, hi) && Coalesced(a) && Coalesced(b)
    requires a != [] && b != [] ==> !(a[|a| - 1].kind.FREE? && b[0].kind.FREE?)
    ensures Tiling(a + b, lo, hi) && Coalesced(a + b)
  {
    var s := a + b;
    forall i | 0 < i < |s|
      ensures End(s[i - 1]) == s[i].start && !(s[i - 1].kind.FREE? && s[i].kind.FREE?)
    {
      if i < |a| {
        assert s[i] == a[i] && s[i - 1] == a[i - 1];
      } else if i > |a| {
        assert s[i] == b[i - |a|] && s[i - 1] == b[i - |a| - 1];
      }
    }
  }

  // ----- a coalesced table is a canonical form -----

  lemma TailTiling(bs: seq<Block>, lo: nat, hi: nat)
    requires Tiling(bs, lo, hi) && Coalesced(bs) && CleanFree(bs) && bs != []
    ensures Tiling(bs[1..], End(bs[0]), hi) && Coalesced(bs[1..]) && CleanFree(bs[1..])
    ensures forall b :: b in bs[1..] <==> b in bs && b != bs[0]
  {
    Disjoint(bs, lo, hi);
    forall b ensures b in bs[1..] <==> b in bs && b != bs[0] {
      if b in bs && b != bs[0] {
        var i :| 0 <= i < |bs| && bs[i] == b;
        assert bs[1..][i - 1] == b;
      }
    }
  }

  // The first blocks of two tables with the same allocations are equal.
  lemma SameHead(a: seq<Block>, b: seq<Block>, lo: nat, hi: nat)
    requires Tiling(a, lo, hi) && Coalesced(a) && CleanFree(a) && a != []
    requires Tiling(b, lo, hi) && Coalesced(b) && CleanFree(b) && b != []
    requires SameAllocations(a, b)
    ensures a[0] == b[0]
  {
    if !a[0].kind.FREE? {
      assert Allocated(a, a[0]);
      assert Allocated(b, a[0]);
      SameStart(b, lo, hi, a[0], b[0], lo);
    } else if !b[0].kind.FREE? {
      assert Allocated(b, b[0]);
      assert Allocated(a, b[0]);
      SameStart(a, lo, hi, a[0], b[0], lo);
    } else {
      assert a[0] in a && b[0] in b;
      FreeHeadNotShorter(a, b, lo, hi);
      FreeHeadNotShorter(b, a, lo, hi);
    }
  }

  lemma FreeHeadNotShorter(a: seq<Block>, b: seq<Block>, lo: nat, hi: nat)
    requires Tiling(a, lo, hi) && Coalesced(a) && a != [] && a[0].kind.FREE?
    requires Tiling(b, lo, hi) && b != [] && b[0].kind.FREE?
    requires SameAllocations(a, b)
    ensures End(a[0]) >= End(b[0])
  {
    Disjoint(b, lo, hi);
    if |a| > 1 {
      assert Allocated(a, a[1]);
      assert Allocated(b, a[1]);
      var j :| 0 <= j < |b| && b[j] == a[1];
      assert End(b[0]) <= b[j].start == End(a[0]);
    }
  }

  // Two coalesced tables of one range with the same allocated blocks are the same table.
  lemma {:induction false} Canonical(a: seq<Block>, b: seq<Block>, lo: nat, hi: nat)
    requires Tiling(a, lo, hi) && Coalesced(a) && CleanFree(a)
    requires Tiling(b, lo, hi) && Coalesced(b) && CleanFree(b)
    requires SameAllocations(a, b)
    ensures a == b
    decreases |a|
  {
    Disjoint(a, lo, hi);
    Disjoint(b, lo, hi);
    if a != [] && b != [] {
      SameHead(a, b, lo, hi);
      TailTiling(a, lo, hi);
      TailTiling(b, lo, hi);
      forall x ensures Allocated(a[1..], x) <==> Allocated(b[1..], x) {
        assert Allocated(a, x) <==> Allocated(b, x);
      }
      Canonical(a[1..], b[1..], End(a[0]), hi);
      assert a == [a[0]] + a[1..] && b == [b[0]] + b[1..];
    }
  }

  // ----- coalescing -----

  predicate Joins(a: Block, b: Block) {
    a.kind.FREE? && b.kind.FREE? && Add32(a.start, a.size) == b.start
  }

  function Push(bs: seq<Block>, b: Block): seq<Block> {
    if bs != [] && Joins(bs[|bs| - 1], b) then
      var last := bs[|bs| - 1];
      bs[..|bs| - 1] + [last.(size := Add32(last.size, b.size))]
    else
      bs + [b]
  }

  function Merge(bs: seq<Block>): seq<Block> {
    if bs == [] then [] else Push(Merge(bs[..|bs| - 1]), bs[|bs| - 1])
  }

  // No two neighbours that Merge leaves could still be joined, whatever the input.
  lemma {:induction false} MergeLeavesNoJoin(bs: seq<Block>)
    ensures forall i :: 0 < i < |Merge(bs)| ==> !Joins(Merge(bs)[i - 1], Merge(bs)[i])
  {
    if bs != [] {
      MergeLeavesNoJoin(bs[..|bs| - 1]);
    }
  }

  lemma TilingSnoc(bs: seq<Block>, lo: nat, b: Block)
    requires b.size > 0
    ensures Tiling(bs + [b], lo, End(b)) <==> Tiling(bs, lo, b.start)
  {
    var s := bs + [b];
    if Tiling(bs, lo, b.start) {
      forall i | 0 < i < |s| ensures End(s[i - 1]) == s[i].start {}
    }
    if Tiling(s, lo, End(b)) {
      forall i | 0 <= i < |bs| ensures bs[i].size > 0 { assert bs[i] == s[i]; }
      forall i | 0 < i < |bs| ensures End(bs[i - 1]) == bs[i].start {
        assert bs[i] == s[i] && bs[i - 1] == s[i - 1];
      }
      if bs != [] {
        assert s[|bs| - 1] == bs[|bs| - 1] && End(s[|bs| - 1]) == s[|bs|].start && s[0] == bs[0];
      }
    }
  }

  lemma JoinLast(front: seq<Block>, last: Block, lo: nat, b: Block)
    requires Tiling(front + [last], lo, b.start) && Coalesced(front + [last])
    requires b.size > 0 && End(b) < 0x1_0000_0000 && last.kind.FREE? && End(last) == b.start
    ensures Tiling(front + [last.(size := last.size + b.size)], lo, End(b))
    ensures Coalesced(front + [last.(size := last.size + b.size)])
  {
    var joined := last.(size := last.size + b.size);
    TilingSnoc(front, lo, last);
    TilingSnoc(front, lo, joined);
    forall i | 0 < i < |front| + 1
      ensures !((front + [joined])[i - 1].kind.FREE? && (front + [joined])[i].kind.FREE?)
    {
      assert !((front + [last])[i - 1].kind.FREE? && (front + [last])[i].kind.FREE?);
    }
  }

  lemma PushTable(bs: seq<Block>, lo: nat, b: Block)
    requires Tiling(bs, lo, b.start) && b.size > 0 && End(b) < 0x1_0000_0000 && Coalesced(bs)
    ensures Tiling(Push(bs, b), lo, End(b)) && Coalesced(Push(bs, b))
  {
    if bs != [] && Joins(bs[|bs| - 1], b) {
      assert bs == bs[..|bs| - 1] + [bs[|bs| - 1]];
      JoinLast(bs[..|bs| - 1], bs[|bs| - 1], lo, b);
    } else {
      AppendTable(bs, lo, b);
    }
  }

  lemma AppendTable(bs: seq<Block>, lo: nat, b: Block)
    requires Tiling(bs, lo, b.start) && b.size > 0 && Coalesced(bs)
    requires bs != [] ==> !Joins(bs[|bs| - 1], b)
    ensures Tiling(bs + [b], lo, End(b)) && Coalesced(bs + [b])
  {
    TilingSnoc(bs, lo, b);
    var s := bs + [b];
    forall i | 0 < i < |s| ensures !(s[i - 1].kind.FREE? && s[i].kind.FREE?) {
      assert s[i - 1] == bs[i - 1];
      if i < |bs| {
        assert s[i] == bs[i];
      }
    }
  }

  lemma {:induction false} MergeTiling(bs: seq<Block>, lo: nat, hi: nat)
    requires Tiling(bs, lo, hi) && hi < 0x1_0000_0000
    ensures Tiling(Merge(bs), lo, hi) && Coalesced(Merge(bs))
  {
    if bs != [] {
      var front, b := bs[..|bs| - 1], bs[|bs| - 1];
      assert bs == front + [b];
      TilingSnoc(front, lo, b);
      MergeTiling(front, lo, b.start);
      PushTable(Merge(front), lo, b);
    }
  }

  // A FREE block that coalescing leaves is one of the FREE blocks, grown.
  ghost predicate GrownFrom(bs: seq<Block>, x: Block) {
    exists y :: y in bs && y.kind.FREE? && x == y.(size := x.size)
  }

  lemma {:induction false} MergeGrows(bs: seq<Block>)
    ensures forall x :: x in Merge(bs) && x.kind.FREE? ==> GrownFrom(bs, x)
  {
    if bs != [] {
      var front, b := bs[..|bs| - 1], bs[|bs| - 1];
      MergeGrows(front);
      assert bs == front + [b];
      forall x | x in Merge(bs) && x.kind.FREE? ensures GrownFrom(bs, x) {
        PushGrows(Merge(front), b, x);
        if y :| y in Merge(front) && y.kind.FREE? && x == y.(size := x.size) {
          assert GrownFrom(front, y);
        }
      }
    }
  }

  lemma PushGrows(bs: seq<Block>, b: Block, x: Block)
    requires x in Push(bs, b) && x.kind.FREE?
    ensures x == b || GrownFrom(bs, x)
  {
    if bs != [] && Joins(bs[|bs| - 1], b) {
      assert bs == bs[..|bs| - 1] + [bs[|bs| - 1]];
    }
  }

  // On a tiling, coalescing keeps the range, the allocations and so the address map, and leaves no adjacent
  // FREE blocks.
  lemma MergeTable(bs: seq<Block>, lo: nat, hi: nat)
    requires Tiling(bs, lo, hi) && hi < 0x1_0000_0000
    ensures Tiling(Merge(bs), lo, hi) && Coalesced(Merge(bs)) && SameAllocations(bs, Merge(bs))
    ensures (CleanFree(bs) ==> CleanFree(Merge(bs))) && (Unowned(bs) ==> Unowned(Merge(bs)))
  {
    MergeTiling(bs, lo, hi);
    MergeGrows(bs);
    MergeKeepsAllocated(bs);
  }

  // On the address map, coalescing changes nothing.
  lemma MergeKeepsMap(bs: seq<Block>, hi: nat, addr: nat)
    requires Tiling(bs, 0, hi) && hi < 0x1_0000_0000
    ensures At(Merge(bs), addr) == At(bs, addr)
  {
    MergeTable(bs, 0, hi);
    SameMap(bs, Merge(bs), hi);
  }

  // ----- sorting by start address -----

  function InsertByStart(b: Block, bs: seq<Block>): seq<Block> {
    if bs == [] || bs[|bs| - 1].start <= b.start then bs + [b]
    else InsertByStart(b, bs[..|bs| - 1]) + [bs[|bs| - 1]]
  }

  function SortByStart(bs: seq<Block>): seq<Block> {
    if bs == [] then [] else InsertByStart(bs[|bs| - 1], SortByStart(bs[..|bs| - 1]))
  }

  lemma {:induction false} TilingIsSorted(bs: seq<Block>, lo: nat, hi: nat)
    requires Tiling(bs, lo, hi)
    ensures SortByStart(bs) == bs
  {
    if bs != [] {
      var front, b := bs[..|bs| - 1], bs[|bs| - 1];
      assert bs == front + [b];
      TilingSnoc(front, lo, b);
      TilingIsSorted(front, lo, b.start);
    }
  }

  lemma {:induction false} CoalescedIsMerged(bs: seq<Block>, lo: nat, hi: nat)
    requires Tiling(bs, lo, hi) && Coalesced(bs)
    ensures Merge(bs) == bs
  {
    if bs != [] {
      var front, b := bs[..|bs| - 1], bs[|bs| - 1];
      assert bs == front + [b];
      TilingSnoc(front, lo, b);
      CoalescedIsMerged(front, lo, b.start);
      if front != [] {
        assert front[|front| - 1] == bs[|front| - 1];
      }
    }
  }

  // The table as an import leaves it.
  function Normalized(bs: seq<Block>): seq<Block> {
    Merge(SortByStart(bs))
  }

  // A well-formed table survives an import unchanged.
  lemma NormalizedTable(bs: seq<Block>, total: nat)
    requires TableOk(bs, total)
    ensures Normalized(bs) == bs
  {
    TilingIsSorted(bs, 0, total);
    CoalescedIsMerged(bs, 0, total);
  }

  // Importing a tiling coalesces it, no more.
  lemma NormalizedTiling(bs: seq<Block>, total: nat)
    requires ValidTable(bs, total)
    ensures ValidTable(Normalized(bs), total) && Coalesced(Normalized(bs)) && SameAllocations(bs, Normalized(bs))
  {
    TilingIsSorted(bs, 0, total);
    MergeTable(bs, 0, total);
  }

  // An imported table that passes the check also has no adjacent FREE blocks.
  lemma ValidImportIsCoalesced(bs: seq<Block>, total: nat)
    requires ValidTable(Normalized(bs), total)
    ensures Coalesced(Normalized(bs))
  {
    var m := Normalized(bs);
    MergeLeavesNoJoin(SortByStart(bs));
    forall i | 0 < i < |m| ensures !(m[i - 1].kind.FREE? && m[i].kind.FREE?) {
      assert !Joins(m[i - 1], m[i]);
    }
  }

  lemma PushKeepsAllocated(bs: seq<Block>, b: Block, x: Block)
    ensures Allocated(Push(bs, b), x) <==> Allocated(bs, x) || (x == b && !b.kind.FREE?)
  {
    if bs != [] && Joins(bs[|bs| - 1], b) {
      var front, last := bs[..|bs| - 1], bs[|bs| - 1];
      assert bs == front + [last];
      assert x in Push(bs, b) <==> x in front || x == last.(size := Add32(last.size, b.size));
    }
  }

  lemma {:induction false} MergeKeepsAllocated(bs: seq<Block>)
    ensures SameAllocations(bs, Merge(bs))
  {
    if bs != [] {
      var front, b := bs[..|bs| - 1], bs[|bs| - 1];
      MergeKeepsAllocated(front);
      assert bs == front + [b];
      forall x ensures Allocated(bs, x) <==> Allocated(Merge(bs), x) {
        PushKeepsAllocated(Merge(front), b, x);
        assert Allocated(front, x) <==> Allocated(Merge(front), x);
      }
    }
  }

  lemma {:induction false} InsertMembers(b: Block, bs: seq<Block>)
    ensures forall x :: x in InsertByStart(b, bs) <==> x == b || x in bs
  {
    if !(bs == [] || bs[|bs| - 1].start <= b.start) {
      InsertMembers(b, bs[..|bs| - 1]);
      assert bs == bs[..|bs| - 1] + [bs[|bs| - 1]];
    }
  }

  lemma {:induction false} SortMembers(bs: seq<Block>)
    ensures forall x :: x in SortByStart(bs) <==> x in bs
  {
    if bs != [] {
      SortMembers(bs[..|bs| - 1]);
      InsertMembers(bs[|bs| - 1], SortByStart(bs[..|bs| - 1]));
      assert bs == bs[..|bs| - 1] + [bs[|bs| - 1]];
    }
  }

  // Whatever is imported, the allocated blocks stay as they are.
  lemma NormalizedKeepsAllocated(bs: seq<Block>)
    ensures SameAllocations(bs, Normalized(bs))
  {
    SortMembers(bs);
    MergeKeepsAllocated(SortByStart(bs));
    forall x ensures Allocated(bs, x) <==> Allocated(Normalized(bs), x) {
      assert Allocated(SortByStart(bs), x) <==> Allocated(Normalized(bs), x);
    }
  }
}
