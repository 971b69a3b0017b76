// The writer and the reader of snapshot files, which advance a stream and give up at the first error.

module SnapshotStores {
  import opened Types
  import opened Codec
  import opened RecordFormat
  import opened SnapshotFormat

  // A write that fails abandons the whole save.
  datatype Written = Done | TooLarge {
    predicate IsFailure() {
      TooLarge?
    }

    function PropagateFailure(): Written
      requires TooLarge?
    {
      TooLarge
    }
  }

  predicate Writable(s: Text) {
    |s| < 0x1_0000_0000
  }

  predicate PcbWritable(x: PCB) {
    Writable(x.name) && Writable(x.owner)
  }

  predicate BlockWritable(x: Block) {
    Writable(x.owner) && Writable(x.tag)
  }

  predicate UserWritable(x: UserAccount) {
    Writable(x.username) && Writable(x.passwordHash) && Writable(x.salt)
  }

  predicate FileWritable(x: VirtualFile) {
    Writable(x.owner) && Writable(x.name) && Writable(x.content)
  }

  // Every string has a length that fits its 32-bit prefix.
  predicate SnapshotWritable(s: Snapshot) {
    && (forall i :: 0 <= i < |s.users| ==> UserWritable(s.users[i]))
    && (forall i :: 0 <= i < |s.pcbs| ==> PcbWritable(s.pcbs[i]))
    && (forall i :: 0 <= i < |s.memoryBlocks| ==> BlockWritable(s.memoryBlocks[i]))
    && Writable(s.schedulerOwner)
    && (forall i :: 0 <= i < |s.virtualFiles| ==> FileWritable(s.virtualFiles[i]))
  }

  // ----- writing -----

  class BinaryWriter {
    var out: Bytes

    constructor ()
      ensures out == []
    {
      out := [];
    }

    // The bytes of a number, the lowest first.
    method WriteNumber(n: nat, v: nat)
      modifies this
      ensures forall t {:trigger PutLE(n, v, t)} :: out + t == old(out) + PutLE(n, v, t)
    {
      var left := v;
      for i := 0 to n
        invariant forall t {:trigger PutLE(n, v, t)} :: out + PutLE(n - i, left, t) == old(out) + PutLE(n, v, t)
      {
        ghost var before := out;
        out := out + [left % 256];
        forall t ensures out + PutLE(n - i - 1, left / 256, t) == old(out) + PutLE(n, v, t) {
          assert before + PutLE(n - i, left, t) == old(out) + PutLE(n, v, t);
        }
        left := left / 256;
      }
    }

    method WriteUint32(v: uint32)
      modifies this
      ensures forall t {:trigger PutU32(v, t)} :: out + t == old(out) + PutU32(v, t)
    {
      WriteNumber(4, v);
    }

    method WriteUint64(v: uint64)
      modifies this
      ensures forall t {:trigger PutU64(v, t)} :: out + t == old(out) + PutU64(v, t)
    {
      WriteNumber(8, v);
    }

    method WriteInt32(v: int32)
      modifies this
      ensures forall t {:trigger PutI32(v, t)} :: out + t == old(out) + PutI32(v, t)
    {
      WriteUint32(if v < 0 then v + 0x1_0000_0000 else v);
    }

    method WriteBool(v: bool)
      modifies this
      ensures forall t {:trigger PutBool(v, t)} :: out + t == old(out) + PutBool(v, t)
    {
      WriteUint32(if v then 1 else 0);
    }

    method WriteString(s: Text) returns (r: Written)
      modifies this
      ensures r.Done? <==> Writable(s)
      ensures r.Done? ==> forall t {:trigger PutText(s, t)} :: out + t == old(out) + PutText(s, t)
    {
      if |s| > 0xFFFF_FFFF {
        return TooLarge;
      }
      WriteUint32(|s|);
      forall t ensures out + s + t == old(out) + PutText(s, t) {
        assert out + s + t == out + (s + t);
        assert out + (s + t) == old(out) + PutU32(|s|, s + t);
      }
      out := out + s;
      r := Done;
    }

    method WriteIds(ids: seq<uint32>)
      modifies this
      ensures forall t {:trigger PutIds(ids, t)} :: out + t == old(out) + PutIds(ids, t)
    {
      WriteUint32(|ids| % 0x1_0000_0000);
      for i := 0 to |ids|
        invariant forall t :: out + PutAll(PutU32, ids[i..], t) == old(out) + PutIds(ids, t)
      {
        ghost var before := out;
        WriteUint32(ids[i]);
        forall t ensures out + PutAll(PutU32, ids[i + 1..], t) == old(out) + PutIds(ids, t) {
          assert ids[i..][1..] == ids[i + 1..];
          assert PutAll(PutU32, ids[i..], t) == PutU32(ids[i], PutAll(PutU32, ids[i + 1..], t));
          assert before + PutAll(PutU32, ids[i..], t) == old(out) + PutIds(ids, t);
        }
      }
    }

    method WritePcb(x: PCB) returns (r: Written)
      modifies this
      ensures r.Done? <==> PcbWritable(x)
      ensures r.Done? ==> forall t {:trigger PutPcb(x, t)} :: out + t == old(out) + PutPcb(x, t)
    {
      r := WriteIdentity(x);
      if r.TooLarge? {
        return;
      }
      WriteSchedule(x);
      WriteTimes(x);
      WriteMemory(x);
    }

    method WriteIdentity(x: PCB) returns (r: Written)
      modifies this
      ensures r.Done? <==> PcbWritable(x)
      ensures r.Done? ==> forall t {:trigger PutIdentity(x, t)} :: out + t == old(out) + PutIdentity(x, t)
    {
      WriteUint32(x.pid);
      WriteUint32(x.ppid);
      :- WriteString(x.name);
      :- WriteString(x.owner);
      r := Done;
    }

    method WriteSchedule(x: PCB)
      modifies this
      ensures forall t {:trigger PutSchedule(x, t)} :: out + t == old(out) + PutSchedule(x, t)
    {
      WriteInt32(StateCode(x.state));
      WriteInt32(x.priority);
      WriteInt32(x.queueLevel);
    }

    method WriteTimes(x: PCB)
      modifies this
      ensures forall t {:trigger PutTimes(x, t)} :: out + t == old(out) + PutTimes(x, t)
    {
      WriteUint32(x.totalTime);
      WriteUint32(x.executedTime);
      WriteUint32(x.remainingTime);
      WriteUint32(x.timeSliceLeft);
    }

    method WriteMemory(x: PCB)
      modifies this
      ensures forall t {:trigger PutMemory(x, t)} :: out + t == old(out) + PutMemory(x, t)
    {
      WriteUint32(x.memStart);
      WriteUint32(x.memSize);
      WriteBool(x.swappedOut);
      WriteIds(x.children);
    }

    method WriteUser(x: UserAccount) returns (r: Written)
      modifies this
      ensures r.Done? <==> UserWritable(x)
      ensures r.Done? ==> forall t {:trigger PutUser(x, t)} :: out + t == old(out) + PutUser(x, t)
    {
      r := WriteString(x.username);
      if r.TooLarge? {
        return;
      }
      :- WriteString(x.passwordHash);
      :- WriteString(x.salt);
      WriteInt32(x.failedAttempts);
      WriteInt32(StatusCode(x.status));
      r := Done;
    }

    method WriteMemoryBlock(x: Block) returns (r: Written)
      modifies this
      ensures r.Done? <==> BlockWritable(x)
      ensures r.Done? ==> forall t {:trigger PutBlock(x, t)} :: out + t == old(out) + PutBlock(x, t)
    {
      WriteUint32(x.start);
      WriteUint32(x.size);
      WriteInt32(KindCode(x.kind));
      WriteUint32(x.pid);
      :- WriteString(x.owner);
      :- WriteString(x.tag);
      r := Done;
    }

    method WriteVirtualFile(x: VirtualFile) returns (r: Written)
      modifies this
      ensures r.Done? <==> FileWritable(x)
      ensures r.Done? ==> forall t {:trigger PutFile(x, t)} :: out + t == old(out) + PutFile(x, t)
    {
      WriteUint32(x.fileId);
      :- WriteString(x.owner);
      :- WriteString(x.name);
      :- WriteString(x.content);
      WriteUint64(x.createdAt);
      WriteUint64(x.modifiedAt);
      r := Done;
    }

    method WriteUsers(xs: seq<UserAccount>) returns (r: Written)
      modifies this
      ensures r.Done? <==> forall i :: 0 <= i < |xs| ==> UserWritable(xs[i])
      ensures r.Done? ==> forall t {:trigger PutList(PutUser, xs, t)} :: out + t == old(out) + PutList(PutUser, xs, t)
    {
      WriteUint32(|xs| % 0x1_0000_0000);
      for i := 0 to |xs|
        invariant forall j :: 0 <= j < i ==> UserWritable(xs[j])
        invariant forall t :: out + PutAll(PutUser, xs[i..], t) == old(out) + PutList(PutUser, xs, t)
      {
        ghost var before := out;
        :- WriteUser(xs[i]);
        forall t ensures out + PutAll(PutUser, xs[i + 1..], t) == old(out) + PutList(PutUser, xs, t) {
          assert xs[i..][1..] == xs[i + 1..];
          assert PutAll(PutUser, xs[i..], t) == PutUser(xs[i], PutAll(PutUser, xs[i + 1..], t));
          assert before + PutAll(PutUser, xs[i..], t) == old(out) + PutList(PutUser, xs, t);
        }
      }
      r := Done;
    }

    method WritePcbs(xs: seq<PCB>) returns (r: Written)
      modifies this
      ensures r.Done? <==> forall i :: 0 <= i < |xs| ==> PcbWritable(xs[i])
      ensures r.Done? ==> forall t {:trigger PutList(PutPcb, xs, t)} :: out + t == old(out) + PutList(PutPcb, xs, t)
    {
      WriteUint32(|xs| % 0x1_0000_0000);
      for i := 0 to |xs|
        invariant forall j :: 0 <= j < i ==> PcbWritable(xs[j])
        invariant forall t :: out + PutAll(PutPcb, xs[i..], t) == old(out) + PutList(PutPcb, xs, t)
      {
        ghost var before := out;
        :- WritePcb(xs[i]);
        forall t ensures out + PutAll(PutPcb, xs[i + 1..], t) == old(out) + PutList(PutPcb, xs, t) {
          assert xs[i..][1..] == xs[i + 1..];
          assert PutAll(PutPcb, xs[i..], t) == PutPcb(xs[i], PutAll(PutPcb, xs[i + 1..], t));
          assert before + PutAll(PutPcb, xs[i..], t) == old(out) + PutList(PutPcb, xs, t);
        }
      }
      r := Done;
    }

    method WriteBlocks(xs: seq<Block>) returns (r: Written)
      modifies this
      ensures r.Done? <==> forall i :: 0 <= i < |xs| ==> BlockWritable(xs[i])
      ensures r.Done? ==> forall t {:trigger PutList(PutBlock, xs, t)} :: out + t == old(out) + PutList(PutBlock, xs, t)
    {
      WriteUint32(|xs| % 0x1_0000_0000);
      for i := 0 to |xs|
        invariant forall j :: 0 <= j < i ==> BlockWritable(xs[j])
        invariant forall t :: out + PutAll(PutBlock, xs[i..], t) == old(out) + PutList(PutBlock, xs, t)
      {
        ghost var before := out;
        :- WriteMemoryBlock(xs[i]);
        forall t ensures out + PutAll(PutBlock, xs[i + 1..], t) == old(out) + PutList(PutBlock, xs, t) {
          assert xs[i..][1..] == xs[i + 1..];
          assert PutAll(PutBlock, xs[i..], t) == PutBlock(xs[i], PutAll(PutBlock, xs[i + 1..], t));
          assert before + PutAll(PutBlock, xs[i..], t) == old(out) + PutList(PutBlock, xs, t);
        }
      }
      r := Done;
    }

    method WriteFiles(xs: seq<VirtualFile>) returns (r: Written)
      modifies this
      ensures r.Done? <==> forall i :: 0 <= i < |xs| ==> FileWritable(xs[i])
      ensures r.Done? ==> forall t {:trigger PutList(PutFile, xs, t)} :: out + t == old(out) + PutList(PutFile, xs, t)
    {
      WriteUint32(|xs| % 0x1_0000_0000);
      for i := 0 to |xs|
        invariant forall j :: 0 <= j < i ==> FileWritable(xs[j])
        invariant forall t :: out + PutAll(PutFile, xs[i..], t) == old(out) + PutList(PutFile, xs, t)
      {
        ghost var before := out;
        :- WriteVirtualFile(xs[i]);
        forall t ensures out + PutAll(PutFile, xs[i + 1..], t) == old(out) + PutList(PutFile, xs, t) {
          assert xs[i..][1..] == xs[i + 1..];
          assert PutAll(PutFile, xs[i..], t) == PutFile(xs[i], PutAll(PutFile, xs[i + 1..], t));
          assert before + PutAll(PutFile, xs[i..], t) == old(out) + PutList(PutFile, xs, t);
        }
      }
      r := Done;
    }
  }

  // The body of save over one stream, in the order that is the file format.
  method Save(s: Snapshot) returns (file: Option<Bytes>)
    ensures file == if SnapshotWritable(s) then Some(Saved(s)) else None
  {
    var w := new BinaryWriter();
    w.out := w.out + MAGIC;
    w.WriteUint32(2);
    w.WriteUint32(HEADER_SIZE);
    w.WriteUint32(0);
    var r := WriteAll(w, s);
    if r.TooLarge? {
      return None;
    }
    assert w.out + [] == w.out;
    assert [] + MAGIC == MAGIC;
    file := Some(w.out);
  }

  method WriteAll(w: BinaryWriter, s: Snapshot) returns (r: Written)
    modifies w
    ensures r.Done? <==> SnapshotWritable(s)
    ensures r.Done? ==> forall t {:trigger PutBody(2, s, t)} :: w.out + t == old(w.out) + PutBody(2, s, t)
  {
    r := w.WriteUsers(s.users);
    if r.TooLarge? {
      return;
    }
    w.WriteUint32(s.nextPid);
    :- w.WritePcbs(s.pcbs);
    w.WriteIds(s.readyQueues[0]);
    w.WriteIds(s.readyQueues[1]);
    w.WriteIds(s.readyQueues[2]);
    w.WriteUint32(s.totalMemoryKB);
    w.WriteInt32(AlgorithmCode(s.allocAlgorithm));
    :- w.WriteBlocks(s.memoryBlocks);
    w.WriteBool(s.schedulerRunning);
    :- w.WriteString(s.schedulerOwner);
    w.WriteUint32(s.nextFileId);
    :- w.WriteFiles(s.virtualFiles);
    r := Done;
  }

  // ----- reading -----

  // A read either takes what the format says off the stream, or fails exactly where the format has nothing to take.
  ghost predicate Took<T>(r: Option<T>, got: Option<(T, Bytes)>, rest: Bytes) {
    match got
    case None => r.None?
    case Some((v, t)) => r == Some(v) && rest == t
  }

  function Prepend<T>(xs: seq<T>, r: Option<(seq<T>, Bytes)>): Option<(seq<T>, Bytes)> {
    match r
    case None => None
    case Some((ys, t)) => Some((xs + ys, t))
  }

  lemma PrependNothing<T>(r: Option<(seq<T>, Bytes)>)
    ensures Prepend([], r) == r
  {
    if r.Some? {
      assert [] + r.value.0 == r.value.0;
    }
  }

  // One more element read from a list.
  lemma TookOneMore<T(!new)>(get: Bytes -> Option<(T, Bytes)>, n: nat, xs: seq<T>, b: Bytes)
    requires n > 0
    ensures match get(b)
      case None => Prepend(xs, GetAll(get, n, b)) == None
      case Some((x, t)) => Prepend(xs, GetAll(get, n, b)) == Prepend(xs + [x], GetAll(get, n - 1, t))
  {
    if get(b).Some? {
      var (x, t) := get(b).value;
      var r := GetAll(get, n - 1, t);
      if r.Some? {
        assert xs + ([x] + r.value.0) == (xs + [x]) + r.value.0;
      }
    }
  }

  // A number takes exactly its bytes and looks at no others.
  lemma {:induction false} PrefixLE(n: nat, b: Bytes)
    ensures n > |b| ==> GetLE(n, b) == None
    ensures n <= |b| ==> GetLE(n, b[..n]).Some? && GetLE(n, b) == Some((GetLE(n, b[..n]).value.0, b[n..]))
  {
    if n > 0 && b != [] {
      PrefixLE(n - 1, b[1..]);
      if n <= |b| {
        assert b[..n][1..] == b[1..][..n - 1] && b[1..][n - 1..] == b[n..];
      }
    }
  }

  class BinaryReader {
    var rest: Bytes  // what the stream still holds

    constructor (file: Bytes)
      ensures rest == file
    {
      rest := file;
    }

    // Some bytes off the stream; too few are an error.
    method ReadBytes(n: nat) returns (r: Option<Bytes>)
      modifies this
      ensures r == if n <= |old(rest)| then Some(old(rest)[..n]) else None
      ensures r.Some? ==> rest == old(rest)[n..]
    {
      var bytes: Bytes := [];
      for i := 0 to n
        invariant i <= |old(rest)| && bytes == old(rest)[..i] && rest == old(rest)[i..]
      {
        if rest == [] {
          return None;
        }
        bytes := bytes + [rest[0]];
        rest := rest[1..];
      }
      r := Some(bytes);
    }

    // A number of so many bytes, the lowest first.
    method ReadNumber(n: nat) returns (r: Option<nat>)
      modifies this
      ensures Took(r, GetLE(n, old(rest)), rest)
    {
      PrefixLE(n, rest);
      var bytes :- ReadBytes(n);
      var v: nat := 0;
      assert bytes[n..] == [];
      for i := n downto 0
        invariant GetLE(n - i, bytes[i..]) == Some((v, []))
      {
        assert bytes[i..][0] == bytes[i] && bytes[i..][1..] == bytes[i + 1..];
        v := bytes[i] + 256 * v;
      }
      assert bytes[0..] == bytes;
      r := Some(v);
    }

    method ReadUint32() returns (r: Option<uint32>)
      modifies this
      ensures Took(r, GetU32(old(rest)), rest)
    {
      assert Pow256(4) == 0x1_0000_0000;
      var v :- ReadNumber(4);
      r := Some(v);
    }

    method ReadUint64() returns (r: Option<uint64>)
      modifies this
      ensures Took(r, GetU64(old(rest)), rest)
    {
      assert Pow256(4) == 0x1_0000_0000;
      assert Pow256(8) == 0x1_0000_0000_0000_0000;
      var v :- ReadNumber(8);
      r := Some(v);
    }

    // Two's complement.
    method ReadInt32() returns (r: Option<int32>)
      modifies this
      ensures Took(r, GetI32(old(rest)), rest)
    {
      var v :- ReadUint32();
      var signed: int := v;
      r := Some(if signed < 0x8000_0000 then signed else signed - 0x1_0000_0000);
    }

    method ReadBool() returns (r: Option<bool>)
      modifies this
      ensures Took(r, GetBool(old(rest)), rest)
    {
      var encoded :- ReadUint32();
      if encoded > 1 {
        return None;
      }
      r := Some(encoded == 1);
    }

    method ReadString() returns (r: Option<Text>)
      modifies this
      ensures Took(r, GetText(FILE_LIMITS, old(rest)), rest)
    {
      var length :- ReadUint32();
      if length > FILE_LIMITS.text {
        return None;
      }
      r := ReadBytes(length);
    }

    method ReadPcb() returns (r: Option<PCB>)
      modifies this
      ensures Took(r, GetPcb(FILE_LIMITS, old(rest)), rest)
    {
      var x := BLANK_PCB;
      x :- ReadIdentity(x);
      x :- ReadSchedule(x);
      x :- ReadTimes(x);
      r := ReadMemory(x);
    }

    method ReadIdentity(x: PCB) returns (r: Option<PCB>)
      modifies this
      ensures Took(r, GetIdentity(FILE_LIMITS, x, old(rest)), rest)
    {
      var pid :- ReadUint32();
      var ppid :- ReadUint32();
      var name :- ReadString();
      var owner :- ReadString();
      r := Some(x.(pid := pid, ppid := ppid, name := name, owner := owner));
    }

    method ReadSchedule(x: PCB) returns (r: Option<PCB>)
      modifies this
      ensures Took(r, GetSchedule(x, old(rest)), rest)
    {
      var code :- ReadInt32();
      var state :- StateOf(code);
      var priority :- ReadInt32();
      var queueLevel :- ReadInt32();
      r := Some(x.(state := state, priority := priority, queueLevel := queueLevel));
    }

    method ReadTimes(x: PCB) returns (r: Option<PCB>)
      modifies this
      ensures Took(r, GetTimes(x, old(rest)), rest)
    {
      var total :- ReadUint32();
      var executed :- ReadUint32();
      var remaining :- ReadUint32();
      var slice :- ReadUint32();
      r := Some(x.(totalTime := total, executedTime := executed, remainingTime := remaining, timeSliceLeft := slice));
    }

    method ReadMemory(x: PCB) returns (r: Option<PCB>)
      modifies this
      ensures Took(r, GetMemory(FILE_LIMITS, x, old(rest)), rest)
    {
      var start :- ReadUint32();
      var size :- ReadUint32();
      var swapped :- ReadBool();
      var children :- ReadIds();
      r := Some(x.(memStart := start, memSize := size, swappedOut := swapped, children := children));
    }

    method ReadUser() returns (r: Option<UserAccount>)
      modifies this
      ensures Took(r, GetUser(FILE_LIMITS, old(rest)), rest)
    {
      var username :- ReadString();
      var hash :- ReadString();
      var salt :- ReadString();
      var failed :- ReadInt32();
      var code :- ReadInt32();
      var status :- StatusOf(code);
      r := Some(UserAccount(username, hash, salt, failed, status));
    }

    method ReadMemoryBlock() returns (r: Option<Block>)
      modifies this
      ensures Took(r, GetBlock(FILE_LIMITS, old(rest)), rest)
    {
      var start :- ReadUint32();
      var size :- ReadUint32();
      var code :- ReadInt32();
      var kind :- KindOf(code);
      var pid :- ReadUint32();
      var owner :- ReadString();
      var tag :- ReadString();
      r := Some(Block(start, size, kind, pid, owner, tag));
    }

    method ReadVirtualFile() returns (r: Option<VirtualFile>)
      modifies this
      ensures Took(r, GetFile(FILE_LIMITS, old(rest)), rest)
    {
      var fileId :- ReadUint32();
      var owner :- ReadString();
      var name :- ReadString();
      var content :- ReadString();
      var created :- ReadUint64();
      var modified :- ReadUint64();
      r := Some(VirtualFile(fileId, owner, name, content, created, modified));
    }

    method ReadIds() returns (r: Option<seq<uint32>>)
      modifies this
      ensures Took(r, GetIds(FILE_LIMITS, old(rest)), rest)
    {
      var count :- ReadUint32();
      if count > FILE_LIMITS.count {
        return None;
      }
      ghost var start := rest;
      var xs: seq<uint32> := [];
      PrependNothing(GetAll(GetU32, count, rest));
      for i := 0 to count
        invariant GetAll(GetU32, count, start) ==
          Prepend(xs, GetAll(GetU32, count - i, rest))
      {
        TookOneMore(GetU32, count - i, xs, rest);
        var x :- ReadUint32();
        xs := xs + [x];
      }
      assert xs + [] == xs;
      r := Some(xs);
    }

    method ReadUsers() returns (r: Option<seq<UserAccount>>)
      modifies this
      ensures Took(r, GetList(FILE_LIMITS, UserGetter(FILE_LIMITS), old(rest)), rest)
    {
      var count :- ReadUint32();
      if count > FILE_LIMITS.count {
        return None;
      }
      ghost var start := rest;
      var xs: seq<UserAccount> := [];
      PrependNothing(GetAll(UserGetter(FILE_LIMITS), count, rest));
      for i := 0 to count
        invariant GetAll(UserGetter(FILE_LIMITS), count, start) ==
          Prepend(xs, GetAll(UserGetter(FILE_LIMITS), count - i, rest))
      {
        TookOneMore(UserGetter(FILE_LIMITS), count - i, xs, rest);
        var x :- ReadUser();
        xs := xs + [x];
      }
      assert xs + [] == xs;
      r := Some(xs);
    }

    method ReadPcbs() returns (r: Option<seq<PCB>>)
      modifies this
      ensures Took(r, GetList(FILE_LIMITS, PcbGetter(FILE_LIMITS), old(rest)), rest)
    {
      var count :- ReadUint32();
      if count > FILE_LIMITS.count {
        return None;
      }
      ghost var start := rest;
      var xs: seq<PCB> := [];
      PrependNothing(GetAll(PcbGetter(FILE_LIMITS), count, rest));
      for i := 0 to count
        invariant GetAll(PcbGetter(FILE_LIMITS), count, start) ==
          Prepend(xs, GetAll(PcbGetter(FILE_LIMITS), count - i, rest))
      {
        TookOneMore(PcbGetter(FILE_LIMITS), count - i, xs, rest);
        var x :- ReadPcb();
        xs := xs + [x];
      }
      assert xs + [] == xs;
      r := Some(xs);
    }

    method ReadBlocks() returns (r: Option<seq<Block>>)
      modifies this
      ensures Took(r, GetList(FILE_LIMITS, BlockGetter(FILE_LIMITS), old(rest)), rest)
    {
      var count :- ReadUint32();
      if count > FILE_LIMITS.count {
        return None;
      }
      ghost var start := rest;
      var xs: seq<Block> := [];
      PrependNothing(GetAll(BlockGetter(FILE_LIMITS), count, rest));
      for i := 0 to count
        invariant GetAll(BlockGetter(FILE_LIMITS), count, start) ==
          Prepend(xs, GetAll(BlockGetter(FILE_LIMITS), count - i, rest))
      {
        TookOneMore(BlockGetter(FILE_LIMITS), count - i, xs, rest);
        var x :- ReadMemoryBlock();
        xs := xs + [x];
      }
      assert xs + [] == xs;
      r := Some(xs);
    }

    method ReadFiles() returns (r: Option<seq<VirtualFile>>)
      modifies this
      ensures Took(r, GetList(FILE_LIMITS, FileGetter(FILE_LIMITS), old(rest)), rest)
    {
      var count :- ReadUint32();
      if count > FILE_LIMITS.count {
        return None;
      }
      ghost var start := rest;
      var xs: seq<VirtualFile> := [];
      PrependNothing(GetAll(FileGetter(FILE_LIMITS), count, rest));
      for i := 0 to count
        invariant GetAll(FileGetter(FILE_LIMITS), count, start) ==
          Prepend(xs, GetAll(FileGetter(FILE_LIMITS), count - i, rest))
      {
        TookOneMore(FileGetter(FILE_LIMITS), count - i, xs, rest);
        var x :- ReadVirtualFile();
        xs := xs + [x];
      }
      assert xs + [] == xs;
      r := Some(xs);
    }

    // The magic bytes and the header; the flags are read and dropped.
    method ReadHeader() returns (r: Option<uint32>)
      modifies this
      ensures match GetHeader(old(rest))
        case None => r.None?
        case Some(((version, flags), t)) => r == Some(version) && rest == t
    {
      if !(MAGIC <= rest) {
        return None;
      }
      rest := rest[|MAGIC|..];
      var version :- ReadUint32();
      if version != 1 && version != 2 {
        return None;
      }
      var headerSize :- ReadUint32();
      if headerSize != HEADER_SIZE {
        return None;
      }
      var flags :- ReadUint32();
      r := Some(version);
    }

    method ReadAccounts(s: Snapshot) returns (r: Option<Snapshot>)
      modifies this
      ensures Took(r, GetAccounts(FILE_LIMITS, s, old(rest)), rest)
    {
      var users :- ReadUsers();
      var nextPid :- ReadUint32();
      var pcbs :- ReadPcbs();
      r := Some(s.(users := users, nextPid := nextPid, pcbs := pcbs));
    }

    method ReadQueues(s: Snapshot) returns (r: Option<Snapshot>)
      modifies this
      ensures Took(r, GetQueues(FILE_LIMITS, s, old(rest)), rest)
    {
      var q0 :- ReadIds();
      var q1 :- ReadIds();
      var q2 :- ReadIds();
      r := Some(s.(readyQueues := [q0, q1, q2]));
    }

    method ReadTable(s: Snapshot) returns (r: Option<Snapshot>)
      modifies this
      ensures Took(r, GetTable(FILE_LIMITS, s, old(rest)), rest)
    {
      var total :- ReadUint32();
      var code :- ReadInt32();
      var algorithm :- AlgorithmOf(code);
      var blocks :- ReadBlocks();
      r := Some(s.(totalMemoryKB := total, allocAlgorithm := algorithm, memoryBlocks := blocks));
    }

    method ReadScheduler(s: Snapshot) returns (r: Option<Snapshot>)
      modifies this
      ensures Took(r, GetScheduler(FILE_LIMITS, s, old(rest)), rest)
    {
      var running :- ReadBool();
      var owner :- ReadString();
      r := Some(s.(schedulerRunning := running, schedulerOwner := owner));
    }

    method ReadVfs(s: Snapshot) returns (r: Option<Snapshot>)
      modifies this
      ensures Took(r, GetVfs(FILE_LIMITS, s, old(rest)), rest)
    {
      var next :- ReadUint32();
      var files :- ReadFiles();
      r := Some(s.(nextFileId := next, virtualFiles := files));
    }
  }

  // The body of load over one stream.
  method Load(file: Bytes) returns (snapshot: Option<Snapshot>)
    ensures snapshot == Loaded(file)
  {
    var reader := new BinaryReader(file);
    var fileVersion :- reader.ReadHeader();
    var s := BLANK;
    s :- reader.ReadAccounts(s);
    s :- reader.ReadQueues(s);
    s :- reader.ReadTable(s);
    s :- reader.ReadScheduler(s);
    if fileVersion >= 2 {
      s :- reader.ReadVfs(s);
    }
    snapshot := Some(s);
  }
}
