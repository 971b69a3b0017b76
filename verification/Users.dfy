// The account table: registration, login, and its listing in the order of the user names.

module Users {
  import opened Types

  type UserMap = map<Text, UserAccount>

  // ----- accounts -----

  predicate AccountOk(x: UserAccount) {
    && x.username != []
    && 0 <= x.failedAttempts <= 3
    && (x.status.NORMAL? ==> x.failedAttempts < 3)
  }

  // The table is keyed by name, whatever else it holds.
  ghost predicate NamesKeyed(users: UserMap) {
    forall u :: u in users ==> users[u].username == u
  }

  ghost predicate UsersOk(users: UserMap) {
    forall u :: u in users ==> users[u].username == u && AccountOk(users[u])
  }

  predicate NameChar(c: byte) {
    48 <= c <= 57 || 65 <= c <= 90 || 97 <= c <= 122 || c == 95 || c == 45
  }

  predicate ValidUsername(name: Text) {
    0 < |name| <= 32 && forall i :: 0 <= i < |name| ==> NameChar(name[i])
  }

  predicate ValidPassword(password: Text) {
    0 < |password| <= 64
  }

  function Registered(users: UserMap, name: Text, password: Text, salt: Text): Option<UserMap> {
    if !ValidUsername(name) || !ValidPassword(password) || name in users then None
    else Some(users[name := UserAccount(name, HashPassword(salt, password), salt, 0, NORMAL)])
  }

  // What a login attempt makes of the accounts, and whether it succeeds.
  function Attempted(users: UserMap, session: Option<Text>, name: Text, password: Text): (UserMap, bool) {
    if session.Some? || name !in users || users[name].status.LOCKED? then (users, false)
    else
      var x := users[name];
      if x.passwordHash == HashPassword(x.salt, password) then (users[name := x.(failedAttempts := 0)], true)
      else
        var failed := if x.failedAttempts < 0x7FFF_FFFF then x.failedAttempts + 1 else x.failedAttempts;
        (users[name := x.(failedAttempts := failed, status := if failed >= 3 then LOCKED else NORMAL)], false)
  }

  // After registering, the password lets the user in, and any other does exactly if its hash is the same.
  lemma RegisteredLogsIn(users: UserMap, name: Text, password: Text, salt: Text, tried: Text)
    ensures match Registered(users, name, password, salt)
      case None => !ValidUsername(name) || !ValidPassword(password) || name in users
      case Some(after) =>
        && Attempted(after, None, name, password) == (after, true)
        && (Attempted(after, None, name, tried).1 <==> HashPassword(salt, tried) == HashPassword(salt, password))
  {
    var r := Registered(users, name, password, salt);
    if r.Some? {
      assert r.value[name := r.value[name].(failedAttempts := 0)] == r.value;
    }
  }

  // Login attempts, one after the other.
  function Attempts(users: UserMap, name: Text, tried: seq<Text>): UserMap {
    if tried == [] then users
    else Attempted(Attempts(users, name, tried[..|tried| - 1]), None, name, tried[|tried| - 1]).0
  }

  // Wrong passwords are counted and the third locks the account; from then on no password lets the user in.
  lemma {:induction false} WrongPasswordsLock(users: UserMap, name: Text, tried: seq<Text>)
    requires UsersOk(users) && name in users && users[name].failedAttempts == 0 && users[name].status.NORMAL?
    requires forall i :: 0 <= i < |tried| ==> HashPassword(users[name].salt, tried[i]) != users[name].passwordHash
    ensures Attempts(users, name, tried) == users[name := users[name].(
      failedAttempts := if |tried| < 3 then |tried| else 3, status := if |tried| < 3 then NORMAL else LOCKED)]
    ensures |tried| >= 3 ==> forall p :: !Attempted(Attempts(users, name, tried), None, name, p).1
  {
    if tried != [] {
      WrongPasswordsLock(users, name, tried[..|tried| - 1]);
    }
  }

  // ----- password hashes: 64-bit FNV-1a of salt and password, in 16 hexadecimal digits -----

  const OFFSET_BASIS: uint64 := 14695981039346656037
  const PRIME: uint64 := 1099511628211

  function Mix(hash: uint64, c: byte): uint64 {
    var low := ((hash % 256) as bv8 ^ c as bv8) as int;
    (hash - hash % 256 + low) * PRIME % 0x1_0000_0000_0000_0000
  }

  function Fnv(hash: uint64, s: Text): uint64
    decreases |s|
  {
    if s == [] then hash else Fnv(Mix(hash, s[0]), s[1..])
  }

  function HexDigit(v: nat): byte
    requires v < 16
  {
    if v < 10 then 48 + v else 87 + v
  }

  function Hex(digits: nat, v: nat): (s: Text)
    ensures |s| == digits
  {
    if digits == 0 then [] else Hex(digits - 1, v / 16) + [HexDigit(v % 16)]
  }

  function HashPassword(salt: Text, password: Text): (hash: Text)
    ensures |hash| == 16
  {
    Hex(16, Fnv(OFFSET_BASIS, salt + password))
  }

  lemma {:induction false} HexDetermines(digits: nat, v: nat, w: nat)
    requires v < Pow16(digits) && w < Pow16(digits)
    ensures Hex(digits, v) == Hex(digits, w) <==> v == w
  {
    if digits > 0 {
      var a, b := Hex(digits - 1, v / 16), Hex(digits - 1, w / 16);
      HexDetermines(digits - 1, v / 16, w / 16);
      assert a == (a + [HexDigit(v % 16)])[..digits - 1];
      assert b == (b + [HexDigit(w % 16)])[..digits - 1];
      assert HexDigit(v % 16) == (a + [HexDigit(v % 16)])[digits - 1];
      assert HexDigit(w % 16) == (b + [HexDigit(w % 16)])[digits - 1];
    }
  }

  function Pow16(n: nat): nat {
    if n == 0 then 1 else 16 * Pow16(n - 1)
  }

  // Two passwords have the same stored hash exactly when they have the same 64-bit hash: the digits lose nothing.
  lemma SameStoredHash(salt: Text, p: Text, q: Text)
    ensures HashPassword(salt, p) == HashPassword(salt, q) <==>
      Fnv(OFFSET_BASIS, salt + p) == Fnv(OFFSET_BASIS, salt + q)
  {
    assert Pow16(8) == 0x1_0000_0000;
    assert Pow16(16) == 0x1_0000_0000_0000_0000;
    HexDetermines(16, Fnv(OFFSET_BASIS, salt + p), Fnv(OFFSET_BASIS, salt + q));
  }

  method ComputeHash(salt: Text, password: Text) returns (digits: Text)
    ensures digits == HashPassword(salt, password)
  {
    var input := salt + password;
    var hash := OFFSET_BASIS;
    for i := 0 to |input|
      invariant Fnv(hash, input[i..]) == Fnv(OFFSET_BASIS, input)
    {
      assert input[i..][0] == input[i] && input[i..][1..] == input[i + 1..];
      hash := Mix(hash, input[i]);
    }
    digits := Hex(16, hash);
  }

  // ----- the order of names -----

  predicate Less(a: Text, b: Text) {
    if b == [] then false
    else if a == [] then true
    else if a[0] != b[0] then a[0] < b[0]
    else Less(a[1..], b[1..])
  }

  lemma {:induction false} LessTransitive(a: Text, b: Text, c: Text)
    requires Less(a, b) && Less(b, c)
    ensures Less(a, c)
  {
    if a != [] && b != [] && a[0] == b[0] == c[0] {
      LessTransitive(a[1..], b[1..], c[1..]);
    }
  }

  lemma {:induction false} LessTotal(a: Text, b: Text)
    ensures Less(a, b) || a == b || Less(b, a)
    ensures !(Less(a, b) && Less(b, a)) && !Less(a, a)
    decreases |a| + |b|
  {
    if a != [] && b != [] && a[0] == b[0] {
      LessTotal(a[1..], b[1..]);
      assert a == [a[0]] + a[1..] && b == [b[0]] + b[1..];
    }
    if a != [] {
      LessIrreflexive(a);
    }
  }

  lemma {:induction false} LessIrreflexive(a: Text)
    ensures !Less(a, a)
  {
    if a != [] {
      LessIrreflexive(a[1..]);
    }
  }

  ghost predicate InOrder(s: seq<UserAccount>) {
    forall i, j :: 0 <= i < j < |s| ==> Less(s[i].username, s[j].username)
  }

  function InsertUser(x: UserAccount, s: seq<UserAccount>): seq<UserAccount> {
    if s == [] || !Less(x.username, s[|s| - 1].username) then s + [x]
    else InsertUser(x, s[..|s| - 1]) + [s[|s| - 1]]
  }

  // std::sort by user name.
  function SortUsers(s: seq<UserAccount>): seq<UserAccount> {
    if s == [] then [] else InsertUser(s[|s| - 1], SortUsers(s[..|s| - 1]))
  }

  lemma {:induction false} InsertUserMembers(x: UserAccount, s: seq<UserAccount>)
    ensures forall y :: y in InsertUser(x, s) <==> y == x || y in s
    ensures |InsertUser(x, s)| == |s| + 1
  {
    if !(s == [] || !Less(x.username, s[|s| - 1].username)) {
      InsertUserMembers(x, s[..|s| - 1]);
      assert s == s[..|s| - 1] + [s[|s| - 1]];
    }
  }

  lemma InOrderSnoc(s: seq<UserAccount>, x: UserAccount)
    requires InOrder(s) && forall y :: y in s ==> Less(y.username, x.username)
    ensures InOrder(s + [x])
  {
    assert forall i :: 0 <= i < |s| ==> s[i] in s;
  }

  lemma {:induction false} InsertUserInOrder(x: UserAccount, s: seq<UserAccount>)
    requires InOrder(s) && forall y :: y in s ==> y.username != x.username
    ensures InOrder(InsertUser(x, s))
  {
    if s != [] {
      var n := |s| - 1;
      var last := s[n];
      assert last in s;
      LessTotal(x.username, last.username);
      if Less(x.username, last.username) {
        assert forall y :: y in s[..n] ==> y in s;
        InsertUserInOrder(x, s[..n]);
        InsertUserMembers(x, s[..n]);
        forall y | y in s[..n] ensures Less(y.username, last.username) {
          var i :| 0 <= i < n && s[i] == y;
        }
        InOrderSnoc(InsertUser(x, s[..n]), last);
      } else {
        forall y | y in s ensures Less(y.username, x.username) {
          var i :| 0 <= i < |s| && s[i] == y;
          if i < n {
            LessTransitive(y.username, last.username, x.username);
          }
        }
        InOrderSnoc(s, x);
      }
    }
  }

  ghost predicate DistinctNames(s: seq<UserAccount>) {
    forall i, j :: 0 <= i < j < |s| ==> s[i].username != s[j].username
  }

  lemma {:induction false} SortUsersCorrect(s: seq<UserAccount>)
    requires DistinctNames(s)
    ensures InOrder(SortUsers(s)) && |SortUsers(s)| == |s| && forall y :: y in SortUsers(s) <==> y in s
  {
    if s != [] {
      var n := |s| - 1;
      assert DistinctNames(s[..n]);
      SortUsersCorrect(s[..n]);
      InsertUserMembers(s[n], SortUsers(s[..n]));
      InsertUserInOrder(s[n], SortUsers(s[..n]));
      assert s == s[..n] + [s[n]];
    }
  }

  lemma LastIsGreatest(s: seq<UserAccount>, x: UserAccount)
    requires InOrder(s) && x in s
    ensures x == s[|s| - 1] || Less(x.username, s[|s| - 1].username)
    ensures x in s[..|s| - 1] <==> x != s[|s| - 1]
  {
    var i :| 0 <= i < |s| && s[i] == x;
    if i < |s| - 1 {
      assert s[..|s| - 1][i] == x;
    }
    if s[|s| - 1] in s[..|s| - 1] {
      var j :| 0 <= j < |s| - 1 && s[j] == s[|s| - 1];
      LessIrreflexive(s[j].username);
    }
  }

  // A list in order is determined by its members.
  lemma {:induction false} InOrderUnique(a: seq<UserAccount>, b: seq<UserAccount>)
    requires InOrder(a) && InOrder(b) && forall x :: x in a <==> x in b
    ensures a == b
  {
    assert a != [] ==> a[0] in b;
    assert b != [] ==> b[0] in a;
    if a != [] && b != [] {
      var m, n := |a| - 1, |b| - 1;
      assert a[m] in a && b[n] in b;
      LastIsGreatest(a, b[n]);
      LastIsGreatest(b, a[m]);
      LessTotal(a[m].username, b[n].username);
      forall x ensures x in a[..m] <==> x in b[..n] {
        if x in a {
          LastIsGreatest(a, x);
          LastIsGreatest(b, x);
        }
      }
      InOrderUnique(a[..m], b[..n]);
      assert a == a[..m] + [a[m]] && b == b[..n] + [b[n]];
    }
  }

  // ----- listing and indexing -----

  // The accounts in the order of their names.
  ghost function ListUsers(users: UserMap): seq<UserAccount> {
    if users == map[] then []
    else
      var u :| u in users;
      InsertUser(users[u], ListUsers(users - {u}))
  }

  lemma {:induction false} ListUsersCorrect(users: UserMap)
    requires NamesKeyed(users)
    ensures InOrder(ListUsers(users)) && |ListUsers(users)| == |users|
    ensures forall x: UserAccount {:trigger x in ListUsers(users)} ::
      x in ListUsers(users) <==> x.username in users && users[x.username] == x
    decreases |users|
  {
    if users != map[] {
      var u :| u in users && ListUsers(users) == InsertUser(users[u], ListUsers(users - {u}));
      var rest := ListUsers(users - {u});
      ListUsersCorrect(users - {u});
      InsertUserMembers(users[u], rest);
      InsertUserInOrder(users[u], rest);
    }
  }

  lemma ListUsersDistinct(users: UserMap)
    requires NamesKeyed(users)
    ensures DistinctNames(ListUsers(users))
  {
    ListUsersCorrect(users);
    InOrderDistinct(ListUsers(users));
  }

  lemma ListUsersMember(users: UserMap, x: UserAccount)
    requires NamesKeyed(users)
    ensures x in ListUsers(users) <==> x.username in users && users[x.username] == x
  {
    ListUsersCorrect(users);
  }

  function IndexUsers(s: seq<UserAccount>): UserMap {
    if s == [] then map[] else IndexUsers(s[..|s| - 1])[s[|s| - 1].username := s[|s| - 1]]
  }

  lemma {:induction false} IndexUsersFrom(s: seq<UserAccount>, u: Text)
    requires u in IndexUsers(s)
    ensures IndexUsers(s)[u] in s && IndexUsers(s)[u].username == u
  {
    var n := |s| - 1;
    if u != s[n].username {
      IndexUsersFrom(s[..n], u);
    }
  }

  lemma {:induction false} IndexUsersHas(s: seq<UserAccount>, x: UserAccount)
    requires DistinctNames(s) && x in s
    ensures x.username in IndexUsers(s) && IndexUsers(s)[x.username] == x
  {
    var n := |s| - 1;
    assert s == s[..n] + [s[n]];
    if x != s[n] {
      assert x in s[..n];
      assert DistinctNames(s[..n]);
      IndexUsersHas(s[..n], x);
    }
  }

  lemma InOrderDistinct(s: seq<UserAccount>)
    requires InOrder(s)
    ensures DistinctNames(s)
  {
    forall i, j | 0 <= i < j < |s| ensures s[i].username != s[j].username {
      LessIrreflexive(s[i].username);
    }
  }

  lemma IndexedUser(users: UserMap, u: Text)
    requires NamesKeyed(users)
    ensures u in IndexUsers(ListUsers(users)) <==> u in users
    ensures u in users ==> IndexUsers(ListUsers(users))[u] == users[u]
  {
    var s := ListUsers(users);
    if u in users {
      ListUsersDistinct(users);
      ListUsersMember(users, users[u]);
      IndexUsersHas(s, users[u]);
    } else if u in IndexUsers(s) {
      IndexUsersFrom(s, u);
      ListUsersMember(users, IndexUsers(s)[u]);
    }
  }

  // Indexing the list of the accounts gives the accounts back.
  lemma IndexOfUserList(users: UserMap)
    requires NamesKeyed(users)
    ensures IndexUsers(ListUsers(users)) == users
  {
    var t := IndexUsers(ListUsers(users));
    forall u ensures (u in t <==> u in users) && (u in users ==> t[u] == users[u]) {
      IndexedUser(users, u);
    }
  }
}
