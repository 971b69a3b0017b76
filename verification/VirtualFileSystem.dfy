// The virtual file system: a list of files, found by owner and name, with ids from a counter.

module VirtualFileSystems {
  import opened Types

  datatype Vfs = Vfs(nextFileId: uint32, files: seq<VirtualFile>)

  // ----- the invariant -----

  predicate IsFile(x: VirtualFile, owner: Text, name: Text) {
    x.owner == owner && x.name == name
  }

  // Ids ascend and lie below the counter, and no user has two files of one name.
  ghost predicate VfsOk(v: Vfs) {
    && (forall i, j :: 0 <= i < j < |v.files| ==> v.files[i].fileId < v.files[j].fileId)
    && (forall i :: 0 <= i < |v.files| ==> 0 < v.files[i].fileId < v.nextFileId)
    && NamesDiffer(v.files)
    && v.nextFileId > 0
  }

  ghost predicate NamesDiffer(files: seq<VirtualFile>) {
    forall i, j :: 0 <= i < j < |files| ==> !IsFile(files[i], files[j].owner, files[j].name)
  }

  // ----- operations -----

  predicate FileNameChar(c: byte) {
    48 <= c <= 57 || 65 <= c <= 90 || 97 <= c <= 122 || c == 95 || c == 45 || c == 46
  }

  predicate ValidFileName(name: Text) {
    0 < |name| <= 64 && forall i :: 0 <= i < |name| ==> FileNameChar(name[i])
  }

  // The first file of that owner and name.
  function FindFile(files: seq<VirtualFile>, owner: Text, name: Text): (r: Option<nat>)
    ensures r.Some? ==> r.value < |files| && IsFile(files[r.value], owner, name)
    ensures r.Some? ==> forall j :: 0 <= j < r.value ==> !IsFile(files[j], owner, name)
    ensures r.None? ==> forall j :: 0 <= j < |files| ==> !IsFile(files[j], owner, name)
  {
    if files == [] then None
    else
      var n := |files| - 1;
      var before := FindFile(files[..n], owner, name);
      if before.Some? then before else if IsFile(files[n], owner, name) then Some(n) else None
  }

  function Content(v: Vfs, owner: Text, name: Text): Option<Text> {
    var i :- FindFile(v.files, owner, name);
    Some(v.files[i].content)
  }

  function Added(v: Vfs, owner: Text, name: Text, content: Text, now: uint64): Vfs {
    Vfs(Add32(v.nextFileId, 1), v.files + [VirtualFile(v.nextFileId, owner, name, content, now, now)])
  }

  function Touch(v: Vfs, owner: Text, name: Text, now: uint64): Option<Vfs> {
    if owner == [] || !ValidFileName(name) || FindFile(v.files, owner, name).Some? then None
    else Some(Added(v, owner, name, [], now))
  }

  function Write(v: Vfs, owner: Text, name: Text, content: Text, now: uint64): Option<Vfs> {
    if owner == [] || !ValidFileName(name) then None
    else
      match FindFile(v.files, owner, name)
      case Some(i) => Some(v.(files := v.files[i := v.files[i].(content := content, modifiedAt := now)]))
      case None => Some(Added(v, owner, name, content, now))
  }

  function Delete(v: Vfs, owner: Text, name: Text): Option<Vfs> {
    if owner == [] then None
    else
      var i :- FindFile(v.files, owner, name);
      Some(v.(files := v.files[..i] + v.files[i + 1..]))
  }

  // ----- what they keep -----

  // A new file keeps everything if and only if the counter of ids does not wrap.
  lemma AddedOk(v: Vfs, owner: Text, name: Text, content: Text, now: uint64)
    requires VfsOk(v) && FindFile(v.files, owner, name).None?
    ensures VfsOk(Added(v, owner, name, content, now)) <==> v.nextFileId != 0xFFFF_FFFF
  {
  }

  lemma WriteOk(v: Vfs, owner: Text, name: Text, content: Text, now: uint64)
    requires VfsOk(v)
    ensures match Write(v, owner, name, content, now)
      case None => true
      case Some(after) =>
        VfsOk(after) <==> FindFile(v.files, owner, name).Some? || v.nextFileId != 0xFFFF_FFFF
  {
    var i := FindFile(v.files, owner, name);
    if i.None? {
      AddedOk(v, owner, name, content, now);
    }
  }

  lemma DeleteOk(v: Vfs, owner: Text, name: Text)
    requires VfsOk(v)
    ensures match Delete(v, owner, name)
      case None => true
      case Some(after) => VfsOk(after) && after.nextFileId == v.nextFileId
  {
    var r := Delete(v, owner, name);
    if r.Some? {
      var i, files := FindFile(v.files, owner, name).value, r.value.files;
      forall j | 0 <= j < |files| ensures files[j] == v.files[if j < i then j else j + 1] {}
    }
  }

  // ----- the files of a user as a map from names to contents -----

  // A write changes the content under one name of one user to what was written; every other name keeps its content.
  lemma WriteThenRead(v: Vfs, owner: Text, name: Text, content: Text, now: uint64, o: Text, n: Text)
    requires VfsOk(v)
    ensures match Write(v, owner, name, content, now)
      case None => owner == [] || !ValidFileName(name)
      case Some(after) =>
        Content(after, o, n) == if o == owner && n == name then Some(content) else Content(v, o, n)
  {
    var f := FindFile(v.files, owner, name);
    if owner == [] || !ValidFileName(name) {
    } else if f.Some? {
      FindAfterUpdate(v.files, f.value, v.files[f.value].(content := content, modifiedAt := now), o, n);
    } else {
      FindAfterAdding(v.files, VirtualFile(v.nextFileId, owner, name, content, now, now), o, n);
    }
  }

  lemma TouchThenRead(v: Vfs, owner: Text, name: Text, now: uint64, o: Text, n: Text)
    requires VfsOk(v)
    ensures match Touch(v, owner, name, now)
      case None => owner == [] || !ValidFileName(name) || Content(v, owner, name).Some?
      case Some(after) =>
        && Content(v, owner, name) == None
        && Content(after, o, n) == if o == owner && n == name then Some([]) else Content(v, o, n)
  {
    if Touch(v, owner, name, now).Some? {
      FindAfterAdding(v.files, VirtualFile(v.nextFileId, owner, name, [], now, now), o, n);
    }
  }

  lemma FindAfterAdding(files: seq<VirtualFile>, x: VirtualFile, o: Text, n: Text)
    ensures FindFile(files + [x], o, n) ==
      if FindFile(files, o, n).Some? then FindFile(files, o, n) else if IsFile(x, o, n) then Some(|files|) else None
  {
    assert (files + [x])[..|files|] == files;
  }

  lemma FindAfterUpdate(files: seq<VirtualFile>, i: nat, x: VirtualFile, o: Text, n: Text)
    requires i < |files| && IsFile(x, files[i].owner, files[i].name)
    ensures FindFile(files[i := x], o, n) == FindFile(files, o, n)
  {
    var a, b := FindFile(files, o, n), FindFile(files[i := x], o, n);
    assert a.Some? ==> IsFile(files[i := x][a.value], o, n);
    assert b.Some? ==> IsFile(files[b.value], o, n);
  }

  lemma {:induction false} FindConcat(a: seq<VirtualFile>, b: seq<VirtualFile>, o: Text, n: Text)
    ensures FindFile(a + b, o, n) ==
      if FindFile(a, o, n).Some? then FindFile(a, o, n)
      else if FindFile(b, o, n).Some? then Some(|a| + FindFile(b, o, n).value)
      else None
  {
    if b == [] {
      assert a + b == a;
    } else {
      var m := |b| - 1;
      FindConcat(a, b[..m], o, n);
      assert a + b == (a + b[..m]) + [b[m]];
      FindAfterAdding(a + b[..m], b[m], o, n);
    }
  }

  // After a deletion the name is gone, which needs that it was there once; every other name keeps its content.
  lemma DeleteThenRead(v: Vfs, owner: Text, name: Text, o: Text, n: Text)
    requires VfsOk(v)
    ensures match Delete(v, owner, name)
      case None => owner == [] || Content(v, owner, name) == None
      case Some(after) => Content(after, o, n) == if o == owner && n == name then None else Content(v, o, n)
  {
    if Delete(v, owner, name).Some? {
      var i := FindFile(v.files, owner, name).value;
      var front, back := v.files[..i], v.files[i + 1..];
      assert v.files == (front + [v.files[i]]) + back;
      FindConcat(front, back, o, n);
      FindConcat(front + [v.files[i]], back, o, n);
      FindAfterAdding(front, v.files[i], o, n);
    }
  }

  // ----- other users' files -----

  function OthersFiles(files: seq<VirtualFile>, u: Text): seq<VirtualFile> {
    if files == [] then []
    else
      var n := |files| - 1;
      OthersFiles(files[..n], u) + if files[n].owner != u then [files[n]] else []
  }

  lemma {:induction false} OthersConcat(a: seq<VirtualFile>, b: seq<VirtualFile>, u: Text)
    ensures OthersFiles(a + b, u) == OthersFiles(a, u) + OthersFiles(b, u)
  {
    if b == [] {
      assert a + b == a;
    } else {
      var n := |b| - 1;
      assert (a + b)[..|a + b| - 1] == a + b[..n];
      OthersConcat(a, b[..n], u);
    }
  }

  // One file of u between two parts makes no difference to what others have.
  lemma OthersAround(a: seq<VirtualFile>, x: VirtualFile, b: seq<VirtualFile>, u: Text)
    requires x.owner == u
    ensures OthersFiles(a + [x] + b, u) == OthersFiles(a, u) + OthersFiles(b, u)
  {
    OthersConcat(a + [x], b, u);
    assert (a + [x])[..|a|] == a;
  }

  // No file operation of a user changes the files of the others or their order.
  lemma FilesAreIsolated(v: Vfs, u: Text, name: Text, content: Text, now: uint64)
    ensures var t := Touch(v, u, name, now); t.Some? ==> OthersFiles(t.value.files, u) == OthersFiles(v.files, u)
    ensures var w := Write(v, u, name, content, now);
      w.Some? ==> OthersFiles(w.value.files, u) == OthersFiles(v.files, u)
    ensures var d := Delete(v, u, name); d.Some? ==> OthersFiles(d.value.files, u) == OthersFiles(v.files, u)
  {
    var f := FindFile(v.files, u, name);
    if f.Some? {
      var i := f.value;
      var front, x, back := v.files[..i], v.files[i], v.files[i + 1..];
      var y := x.(content := content, modifiedAt := now);
      assert v.files == front + [x] + back && v.files[i := y] == front + [y] + back;
      OthersAround(front, x, back, u);
      OthersAround(front, y, back, u);
      OthersConcat(front, back, u);
    } else {
      var x := VirtualFile(v.nextFileId, u, name, [], now, now);
      var y := VirtualFile(v.nextFileId, u, name, content, now, now);
      OthersAround(v.files, x, [], u);
      OthersAround(v.files, y, [], u);
      assert v.files + [x] + [] == v.files + [x] && v.files + [y] + [] == v.files + [y];
    }
  }

  // ----- listing -----

  function InsertFile(x: VirtualFile, s: seq<VirtualFile>): seq<VirtualFile> {
    if s == [] || s[|s| - 1].fileId <= x.fileId then s + [x] else InsertFile(x, s[..|s| - 1]) + [s[|s| - 1]]
  }

  function SortFiles(s: seq<VirtualFile>): seq<VirtualFile> {
    if s == [] then [] else InsertFile(s[|s| - 1], SortFiles(s[..|s| - 1]))
  }

  lemma {:induction false} FilesAreSorted(files: seq<VirtualFile>)
    requires forall i, j :: 0 <= i < j < |files| ==> files[i].fileId < files[j].fileId
    ensures SortFiles(files) == files
  {
    if files != [] {
      var n := |files| - 1;
      FilesAreSorted(files[..n]);
      assert n > 0 ==> files[..n][n - 1].fileId < files[n].fileId;
      assert files == files[..n] + [files[n]];
    }
  }

  lemma {:induction false} FilesBounded(files: seq<VirtualFile>, next: nat)
    requires forall i, j :: 0 <= i < j < |files| ==> files[i].fileId < files[j].fileId
    requires (forall i :: 0 <= i < |files| ==> 0 < files[i].fileId < next) && next > 0
    ensures |files| < next
    decreases |files|
  {
    if files != [] {
      var n := |files| - 1;
      FilesBounded(files[..n], files[n].fileId);
    }
  }

  // ----- the object -----

  class VirtualFileSystem {
    var nextFileId: uint32
    var files: seq<VirtualFile>

    ghost function View(): Vfs
      reads this
    {
      Vfs(nextFileId, files)
    }

    constructor ()
      ensures View() == Vfs(1, [])
    {
      nextFileId := 1;
      files := [];
    }

    method FindFileIndex(owner: Text, name: Text) returns (found: Option<nat>)
      ensures found == FindFile(files, owner, name)
    {
      for i := 0 to |files|
        invariant forall j :: 0 <= j < i ==> !IsFile(files[j], owner, name)
      {
        if IsFile(files[i], owner, name) {
          return Some(i);
        }
      }
      found := None;
    }

    method CreateFile(owner: Text, name: Text, now: uint64) returns (ok: bool)
      modifies this
      ensures Outcome(ok, old(View()), View(), Touch(old(View()), owner, name, now))
    {
      if owner == [] || !ValidFileName(name) {
        return false;
      }
      var index := FindFileIndex(owner, name);
      if index.Some? {
        return false;
      }
      files := files + [VirtualFile(nextFileId, owner, name, [], now, now)];
      nextFileId := Add32(nextFileId, 1);
      ok := true;
    }

    method WriteFile(owner: Text, name: Text, content: Text, now: uint64) returns (ok: bool)
      modifies this
      ensures Outcome(ok, old(View()), View(), Write(old(View()), owner, name, content, now))
    {
      if owner == [] || !ValidFileName(name) {
        return false;
      }
      var index := FindFileIndex(owner, name);
      if index.Some? {
        files := files[index.value := files[index.value].(content := content, modifiedAt := now)];
        return true;
      }
      files := files + [VirtualFile(nextFileId, owner, name, content, now, now)];
      nextFileId := Add32(nextFileId, 1);
      ok := true;
    }

    method ReadFile(owner: Text, name: Text) returns (content: Option<Text>)
      ensures content == if owner == [] then None else Content(View(), owner, name)
    {
      if owner == [] {
        return None;
      }
      var index :- FindFileIndex(owner, name);
      content := Some(files[index].content);
    }

    method DeleteFile(owner: Text, name: Text) returns (ok: bool)
      modifies this`files
      ensures Outcome(ok, old(View()), View(), Delete(old(View()), owner, name))
    {
      if owner == [] {
        return false;
      }
      var index := FindFileIndex(owner, name);
      if index.None? {
        return false;
      }
      files := files[..index.value] + files[index.value + 1..];
      ok := true;
    }

    method ImportFiles(next: uint32, list: seq<VirtualFile>)
      modifies this
      ensures View() == Vfs(if next < 1 then 1 else next, list)
    {
      nextFileId := if next < 1 then 1 else next;
      files := list;
    }
  }

  // A call that may refuse: it changes nothing, or leaves the state it was meant to.
  ghost predicate Outcome(ok: bool, before: Vfs, after: Vfs, meant: Option<Vfs>) {
    match meant
    case None => !ok && after == before
    case Some(v) => ok && after == v
  }
}
