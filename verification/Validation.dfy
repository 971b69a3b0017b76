// The check that a snapshot passes before it is imported, loop by loop.

module Validation {
  import opened Types
  import opened Compaction
  import opened ProcessRestore
  import opened Users
  import opened KernelState
  import opened MemoryManagers

  lemma {:induction false} IndexedNames(s: seq<UserAccount>, u: Text)
    ensures u in IndexUsers(s) <==> exists x :: x in s && x.username == u
  {
    if s != [] {
      var n := |s| - 1;
      IndexedNames(s[..n], u);
      assert s == s[..n] + [s[n]];
    }
  }

  method CheckUsers(users: seq<UserAccount>) returns (ok: bool, usernames: set<Text>)
    ensures ok <==> UsersValid(users)
    ensures ok ==> usernames == IndexUsers(users).Keys
  {
    usernames := {};
    for i := 0 to |users|
      invariant usernames == IndexUsers(users[..i]).Keys
      invariant UsersValid(users[..i])
    {
      var account := users[i];
      IndexedNames(users[..i], account.username);
      assert users[..i + 1] == users[..i] + [account];
      if account.username == [] {
        assert account in users;
        return false, {};
      }
      if account.username in usernames {
        return false, {};
      }
      usernames := usernames + {account.username};
    }
    assert users[..|users|] == users;
    ok := true;
  }

  // The first pass over the PCBs.
  ghost predicate FirstPass(s: Snapshot) {
    && DistinctPids(s.pcbs)
    && (forall x :: x in s.pcbs ==> PcbValid(x) && x.owner in IndexUsers(s.users) && x.pid < s.nextPid)
    && 0 < s.nextPid
  }

  method CheckPcb(pcb: PCB, usernames: set<Text>) returns (ok: bool)
    requires pcb.pid != 0
    ensures ok <==> PcbValid(pcb) && pcb.owner in usernames
  {
    if pcb.owner !in usernames || pcb.ppid == pcb.pid {
      return false;
    }
    if pcb.priority < 0 || pcb.priority > 15 || pcb.queueLevel < 0 || pcb.queueLevel > 2 {
      return false;
    }
    ok := !(pcb.executedTime > pcb.totalTime || pcb.remainingTime > pcb.totalTime);
  }

  lemma IndexNext(s: seq<PCB>, i: nat)
    requires i < |s|
    ensures IndexPcbs(s[..i + 1]) == IndexPcbs(s[..i])[s[i].pid := s[i]]
  {
    assert s[..i + 1][..i] == s[..i];
  }

  // The index of the earlier PCBs holds a pid exactly when one of them has it.
  lemma PidTaken(s: seq<PCB>, i: nat)
    requires i < |s| && DistinctPids(s[..i])
    ensures s[i].pid in IndexPcbs(s[..i]) <==> !DistinctPids(s[..i + 1])
    ensures !DistinctPids(s[..i + 1]) ==> !DistinctPids(s)
  {
    var front, next := s[..i], s[..i + 1];
    IndexKeys(front);
    assert next == front + [s[i]];
    if s[i].pid in IndexPcbs(front) {
      var j :| 0 <= j < i && front[j] == IndexPcbs(front)[s[i].pid];
      assert next[j].pid == next[i].pid;
    }
  }

  ghost predicate Accepted(x: PCB, usernames: set<Text>, maxPid: nat) {
    PcbValid(x) && x.owner in usernames && x.pid <= maxPid
  }

  method CheckPcbs(s: Snapshot, usernames: set<Text>) returns (ok: bool)
    requires usernames == IndexUsers(s.users).Keys
    ensures ok <==> FirstPass(s)
  {
    var pcbs: map<uint32, PCB> := map[];
    var maxPid: uint32 := 0;
    for i := 0 to |s.pcbs|
      invariant pcbs == IndexPcbs(s.pcbs[..i])
      invariant DistinctPids(s.pcbs[..i])
      invariant forall j :: 0 <= j < i ==> Accepted(s.pcbs[j], usernames, maxPid)
      invariant maxPid == 0 || exists j :: 0 <= j < i && s.pcbs[j].pid == maxPid
    {
      var pcb := s.pcbs[i];
      PidTaken(s.pcbs, i);
      IndexNext(s.pcbs, i);
      assert pcb in s.pcbs;
      if pcb.pid == 0 || pcb.pid in pcbs {
        return false;
      }
      var fine := CheckPcb(pcb, usernames);
      if !fine {
        return false;
      }
      pcbs := pcbs[pcb.pid := pcb];
      maxPid := if maxPid < pcb.pid then pcb.pid else maxPid;
    }
    assert s.pcbs[..|s.pcbs|] == s.pcbs;
    ok := !(s.nextPid <= maxPid);
  }

  // Parents and children are present.
  ghost predicate Linked(x: PCB, table: map<uint32, PCB>) {
    (x.ppid != 0 ==> x.ppid in table) && forall c :: c in x.children ==> c in table
  }

  lemma BothPasses(s: Snapshot)
    ensures PcbsValid(s) <==> FirstPass(s) && forall x :: x in s.pcbs ==> Linked(x, IndexPcbs(s.pcbs))
  {
  }

  method CheckLinks(s: Snapshot) returns (ok: bool)
    ensures ok <==> forall x :: x in s.pcbs ==> Linked(x, IndexPcbs(s.pcbs))
  {
    var table := IndexPcbs(s.pcbs);
    for i := 0 to |s.pcbs|
      invariant forall j :: 0 <= j < i ==> Linked(s.pcbs[j], table)
    {
      var pcb := s.pcbs[i];
      assert pcb in s.pcbs;
      if pcb.ppid != 0 && pcb.ppid !in table {
        return false;
      }
      for c := 0 to |pcb.children|
        invariant forall d :: 0 <= d < c ==> pcb.children[d] in table
      {
        if pcb.children[c] !in table {
          assert pcb.children[c] in pcb.children;
          return false;
        }
      }
    }
    ok := true;
  }

  method CheckBlocks(s: Snapshot, usernames: set<Text>) returns (ok: bool, owners: set<uint32>)
    requires usernames == IndexUsers(s.users).Keys
    ensures ok <==> (forall b :: b in s.memoryBlocks ==> BlockValid(s, b)) && OneBlockPerPid(s.memoryBlocks)
    ensures ok ==> forall p :: p in owners <==> OwnsBlock(s.memoryBlocks, p)
  {
    var table := IndexPcbs(s.pcbs);
    var bs := s.memoryBlocks;
    owners := {};
    for i := 0 to |bs|
      invariant forall j :: 0 <= j < i ==> BlockValid(s, bs[j])
      invariant OneBlockPerPid(bs[..i])
      invariant forall p :: p in owners <==> exists j :: 0 <= j < i && bs[j].kind.PROCESS? && bs[j].pid == p
    {
      var block := bs[i];
      assert block in bs;
      if block.kind.PROCESS? {
        if block.pid !in table || table[block.pid].owner != block.owner {
          return false, {};
        }
        if table[block.pid].swappedOut || table[block.pid].state.SWAPPED? {
          return false, {};
        }
        if block.start != table[block.pid].memStart || block.size != table[block.pid].memSize {
          return false, {};
        }
        if block.pid in owners {
          return false, {};
        }
        owners := owners + {block.pid};
      }
      if (block.kind.KERNEL? || block.kind.PROCESS?) && block.owner !in usernames {
        return false, {};
      }
    }
    assert bs[..|bs|] == bs;
    forall p ensures p in owners <==> OwnsBlock(bs, p) {
      if OwnsBlock(bs, p) {
        var b :| b in bs && b.kind.PROCESS? && b.pid == p;
        var j :| 0 <= j < |bs| && bs[j] == b;
      }
    }
    ok := true;
  }

  method CheckOwners(s: Snapshot, owners: set<uint32>) returns (ok: bool)
    requires DistinctPids(s.pcbs)
    ensures ok <==> forall x :: x in s.pcbs && !IsSwapped(x) ==> x.pid in owners
  {
    var table := IndexPcbs(s.pcbs);
    IndexKeys(s.pcbs);
    var todo := table.Keys;
    while todo != {}
      invariant todo <= table.Keys
      invariant forall p :: p in table && p !in todo ==> IsSwapped(table[p]) || p in owners
    {
      var p :| p in todo;
      if !(table[p].swappedOut || table[p].state.SWAPPED?) && p !in owners {
        assert table[p] in s.pcbs;
        return false;
      }
      todo := todo - {p};
    }
    ok := true;
  }

  // The whole check, in the order of the original; the last part tries the table in a memory manager of its own.
  method ValidateSnapshot(s: Snapshot) returns (ok: bool)
    ensures ok <==> ValidSnapshot(s)
  {
    BothPasses(s);
    var usersOk, usernames := CheckUsers(s.users);
    if !usersOk {
      return false;
    }
    var pcbsOk := CheckPcbs(s, usernames);
    if !pcbsOk {
      return false;
    }
    var linksOk := CheckLinks(s);
    if !linksOk {
      return false;
    }
    if s.totalMemoryKB == 0 {
      return false;
    }
    var blocksOk, owners := CheckBlocks(s, usernames);
    if !blocksOk {
      return false;
    }
    var ownersOk := CheckOwners(s, owners);
    if !ownersOk {
      return false;
    }
    var validator := new MemoryManager();
    validator.SetTotalMemoryKB(s.totalMemoryKB);
    validator.SetAlgorithm(s.allocAlgorithm);
    validator.ImportBlocks(s.memoryBlocks);
    ok := validator.ValidateBlocks();
  }
}
