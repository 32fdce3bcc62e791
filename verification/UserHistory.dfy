/**
 What the user store answers, told from the history of operations alone: who exists, which
 password lets a user in, and whether it has to be changed, over every sequence of operations
 from an empty store.
 */
module UserHistory {
  import opened Wrappers
  import opened Users

  function Store(h: seq<Op>): seq<User> {
    if h == [] then [] else Edit(Store(h[..|h| - 1]), h[|h| - 1]).0
  }

  ghost predicate Unique(users: seq<User>) {
    forall i, j :: 0 <= i < j < |users| ==> users[i].username != users[j].username
  }

  function Lookup(users: seq<User>, name: string): Option<User> {
    var i := Place(users, name);
    if i < |users| then Some(users[i]) else None
  }

  // ------------------------------------------------------------------ the history, read on its own

  predicate Hashable(password: string) {
    |password| <= 72
  }

  predicate IsAdd(op: Op, name: string) {
    op.Add? && op.name == name && Hashable(op.password)
  }

  predicate IsWrite(op: Op, name: string) {
    (op.Reset? || op.SetPassword?) && op.name == name && Hashable(op.password)
  }

  // The add at b created the user that exists now: it came when there was none, and no removal
  // came after it.
  ghost predicate Born(h: seq<Op>, name: string, b: nat) {
    && b < |h| && IsAdd(h[b], name)
    && (forall j :: b < j < |h| ==> h[j] != Remove(name))
    && (forall j :: 0 <= j < b && IsAdd(h[j], name) ==> exists r :: j < r < b && h[r] == Remove(name))
  }

  // The last accepted password write of the user created at b.
  ghost predicate LastWrite(h: seq<Op>, name: string, b: nat, k: nat) {
    && b <= k < |h| && (k == b || IsWrite(h[k], name))
    && (forall j :: k < j < |h| ==> !IsWrite(h[j], name))
  }

  // The last Lock or Unlock since b is a Lock.
  ghost predicate LockedSince(h: seq<Op>, name: string, b: nat) {
    exists j :: b < j < |h| && h[j] == Lock(name) && forall m :: j < m < |h| ==> h[m] != Unlock(name)
  }

  predicate IsLogin(op: Op, name: string) {
    op.UpdateLastLogin? && op.name == name
  }

  // The time of the last login recorded since b; NEVER when there is none.
  ghost predicate LastLoginIs(h: seq<Op>, name: string, b: nat, time: int) {
    || (time == NEVER && forall j :: b < j < |h| ==> !IsLogin(h[j], name))
    || exists j :: b < j < |h| && h[j] == UpdateLastLogin(name, time)
                   && forall m :: j < m < |h| ==> !IsLogin(h[m], name)
  }

  // ------------------------------------------------------------------ one pass over the history

  datatype Account = Gone | Since(born: nat, write: nat, locked: bool, login: int)

  function Next(a: Account, op: Op, n: nat): Account {
    match op
    case Add(_, p) => if a.Gone? && Hashable(p) then Since(n, n, false, NEVER) else a
    case Remove(_) => Gone
    case Lock(_) => if a.Since? then a.(locked := true) else a
    case Unlock(_) => if a.Since? then a.(locked := false) else a
    case Reset(_, p) => if a.Since? && Hashable(p) then a.(write := n) else a
    case SetPassword(_, p) => if a.Since? && Hashable(p) then a.(write := n) else a
    case UpdateLastLogin(_, now) => if a.Since? then a.(login := now) else a
  }

  function AccountOf(h: seq<Op>, name: string): Account {
    if h == [] then Gone
    else
      var n, a := |h| - 1, AccountOf(h[..|h| - 1], name);
      if h[n].name == name then Next(a, h[n], n) else a
  }

  function PasswordOf(op: Op): string {
    match op
    case Add(_, p) => p
    case Reset(_, p) => p
    case SetPassword(_, p) => p
    case _ => ""
  }

  // ------------------------------------------------------------------ the store follows the account

  lemma LookupFound(users: seq<User>, i: nat)
    requires Unique(users) && i < |users|
    ensures Lookup(users, users[i].username) == Some(users[i])
  {
  }

  lemma EditKeepsUnique(users: seq<User>, op: Op)
    requires Unique(users)
    ensures Unique(Edit(users, op).0)
  {
    hide Changed;
    var i := Place(users, op.name);
    if i < |users| {
      ChangedKeepsName(users[i], op);
    }
  }

  // An operation changes the answer for its own user only.
  lemma EditTouchesOne(users: seq<User>, op: Op, name: string)
    requires Unique(users) && name != op.name
    ensures Lookup(Edit(users, op).0, name) == Lookup(users, name)
  {
    hide Changed, Unique;
    EditKeepsUnique(users, op);
    var i, k := Place(users, op.name), Place(users, name);
    var after := Edit(users, op).0;
    if k < |users| {
      var at := if op.Remove? && i < k then k - 1 else k;
      assert after[at] == users[k];
      LookupFound(after, at);
    } else {
      LookupAbsent(users, op, name);
    }
  }

  lemma LookupAbsent(users: seq<User>, op: Op, name: string)
    requires name != op.name && Lookup(users, name) == None
    ensures Lookup(Edit(users, op).0, name) == None
  {
    hide Changed;
    var i := Place(users, op.name);
    if i < |users| {
      ChangedKeepsName(users[i], op);
    }
  }

  // What an operation makes of its own user.
  function Renewed(before: Option<User>, op: Op): Option<User> {
    match op
    case Add(name, p) =>
      if before.None? && Hashable(p) then Some(User(name, Hash(p), false, true, NEVER)) else before
    case Remove(_) => None
    case _ => if before.Some? then Some(Changed(before.value, op)) else None
  }

  lemma EditRenews(users: seq<User>, op: Op)
    requires Unique(users)
    ensures Lookup(Edit(users, op).0, op.name) == Renewed(Lookup(users, op.name), op)
  {
    hide Changed;
    EditKeepsUnique(users, op);
    var i, after := Place(users, op.name), Edit(users, op).0;
    if op.Add? {
      if i == |users| && Hashable(op.password) {
        LookupFound(after, i);
      }
    } else if !op.Remove? && i < |users| {
      ChangedKeepsName(users[i], op);
      LookupFound(after, i);
    }
  }

  lemma ChangedKeepsName(u: User, op: Op)
    ensures Changed(u, op).username == u.username
  {
  }

  ghost predicate Tells(h: seq<Op>, a: Account, r: Option<User>) {
    match a
    case Gone => r == None
    case Since(_, k, locked, login) =>
      && k < |h| && r.Some?
      && r.value.passwordHash == Hash(PasswordOf(h[k]))
      && (r.value.forceChange <==> !h[k].SetPassword?)
      && r.value.locked == locked && r.value.lastLogin == login
  }

  lemma RenewedTells(h: seq<Op>, op: Op, a: Account, r: Option<User>)
    requires Tells(h, a, r)
    ensures Tells(h + [op], Next(a, op, |h|), Renewed(r, op))
  {
  }

  lemma TellsLonger(h: seq<Op>, op: Op, a: Account, r: Option<User>)
    requires Tells(h, a, r)
    ensures Tells(h + [op], a, r)
  {
  }

  lemma {:induction false} StoreFollowsAccount(h: seq<Op>, name: string)
    ensures Unique(Store(h)) && Tells(h, AccountOf(h, name), Lookup(Store(h), name))
  {
    if h == [] {
      return;
    }
    hide Edit, Next, Lookup, Unique, Tells, Renewed;
    var before, op := h[..|h| - 1], h[|h| - 1];
    var a, users := AccountOf(before, name), Store(before);
    StoreFollowsAccount(before, name);
    EditKeepsUnique(users, op);
    assert before + [op] == h;
    if op.name != name {
      EditTouchesOne(users, op, name);
      TellsLonger(before, op, a, Lookup(users, name));
    } else {
      EditRenews(users, op);
      RenewedTells(before, op, a, Lookup(users, name));
    }
  }

  // ------------------------------------------------------------------ the account is what the history says

  ghost predicate Explains(h: seq<Op>, name: string, a: Account) {
    match a
    case Gone =>
      forall j :: 0 <= j < |h| && IsAdd(h[j], name) ==> exists r :: j < r < |h| && h[r] == Remove(name)
    case Since(b, k, locked, login) =>
      && Born(h, name, b) && LastWrite(h, name, b, k) && (locked <==> LockedSince(h, name, b))
      && LastLoginIs(h, name, b, login)
  }

  // Whether the adds before b are all followed by a removal before b depends on nothing later.
  ghost predicate Cleared(h: seq<Op>, name: string, b: nat)
    requires b <= |h|
  {
    forall j :: 0 <= j < b && IsAdd(h[j], name) ==> exists r :: j < r < b && h[r] == Remove(name)
  }

  lemma ClearedGrows(h: seq<Op>, op: Op, name: string, b: nat)
    requires b <= |h| && Cleared(h, name, b)
    ensures Cleared(h + [op], name, b)
  {
    var g := h + [op];
    forall j | 0 <= j < b && IsAdd(g[j], name) ensures exists r :: j < r < b && g[r] == Remove(name) {
      assert h[j] == g[j];
      var r :| j < r < b && h[r] == Remove(name);
      assert g[r] == Remove(name);
    }
  }

  lemma BornGrows(h: seq<Op>, op: Op, name: string, b: nat)
    requires Born(h, name, b) && op != Remove(name)
    ensures Born(h + [op], name, b)
  {
    assert Cleared(h, name, b);
    ClearedGrows(h, op, name, b);
  }

  lemma LastWriteGrows(h: seq<Op>, op: Op, name: string, b: nat, k: nat)
    requires LastWrite(h, name, b, k)
    ensures LastWrite(h + [op], name, b, if IsWrite(op, name) then |h| else k)
  {
  }

  lemma LockedSinceGrows(h: seq<Op>, op: Op, name: string, b: nat)
    requires b < |h|
    ensures LockedSince(h + [op], name, b) <==> op == Lock(name) || (LockedSince(h, name, b) && op != Unlock(name))
  {
    var g := h + [op];
    if op == Lock(name) {
      assert g[|h|] == Lock(name);
    } else if LockedSince(h, name, b) && op != Unlock(name) {
      var j :| b < j < |h| && h[j] == Lock(name) && forall m :: j < m < |h| ==> h[m] != Unlock(name);
      assert g[j] == Lock(name);
    } else if LockedSince(g, name, b) {
      var j :| b < j < |g| && g[j] == Lock(name) && forall m :: j < m < |g| ==> g[m] != Unlock(name);
      assert g[|h|] == op && h[j] == Lock(name);
      forall m | j < m < |h| ensures h[m] != Unlock(name) {
        assert g[m] == h[m];
      }
      assert false;
    }
  }

  lemma ExplainsGone(h: seq<Op>, op: Op, name: string)
    requires Explains(h, name, Gone)
    ensures !IsAdd(op, name) ==> Explains(h + [op], name, Gone)
    ensures IsAdd(op, name) ==> Explains(h + [op], name, Since(|h|, |h|, false, NEVER))
  {
    var g := h + [op];
    assert Cleared(h, name, |h|);
    ClearedGrows(h, op, name, |h|);
    if !IsAdd(op, name) {
      forall j | 0 <= j < |g| && IsAdd(g[j], name) ensures exists r :: j < r < |g| && g[r] == Remove(name) {
        var r :| j < r < |h| && g[r] == Remove(name);
      }
    }
  }

  lemma ExplainsRemoved(h: seq<Op>, name: string, a: Account)
    ensures Explains(h + [Remove(name)], name, Gone)
  {
    var g := h + [Remove(name)];
    assert g[|h|] == Remove(name);
  }

  lemma LastLoginGrows(h: seq<Op>, op: Op, name: string, b: nat, time: int)
    requires b < |h| && LastLoginIs(h, name, b, time)
    ensures LastLoginIs(h + [op], name, b, if IsLogin(op, name) then op.now else time)
  {
    var g := h + [op];
    if IsLogin(op, name) {
      assert g[|h|] == UpdateLastLogin(name, op.now);
    } else if j :| b < j < |h| && h[j] == UpdateLastLogin(name, time)
                   && forall m :: j < m < |h| ==> !IsLogin(h[m], name) {
      assert g[j] == UpdateLastLogin(name, time);
    }
  }

  lemma ExplainsSince(h: seq<Op>, op: Op, name: string, b: nat, k: nat, locked: bool, login: int)
    requires Explains(h, name, Since(b, k, locked, login)) && op != Remove(name)
    ensures Explains(h + [op], name,
              Since(b, if IsWrite(op, name) then |h| else k, op == Lock(name) || (locked && op != Unlock(name)),
                    if IsLogin(op, name) then op.now else login))
  {
    hide Born, LastWrite, LockedSince, LastLoginIs;
    InRange(h, name, b, k);
    LastLoginGrows(h, op, name, b, login);
    BornGrows(h, op, name, b);
    LastWriteGrows(h, op, name, b, k);
    LockedSinceGrows(h, op, name, b);
  }

  lemma InRange(h: seq<Op>, name: string, b: nat, k: nat)
    requires Born(h, name, b) && LastWrite(h, name, b, k)
    ensures b < |h| && k < |h|
  {
  }

  lemma {:induction false} HistoryExplainsAccount(h: seq<Op>, name: string)
    ensures Explains(h, name, AccountOf(h, name))
  {
    if h != [] {
      hide Explains;
      var before, op := h[..|h| - 1], h[|h| - 1];
      HistoryExplainsAccount(before, name);
      assert before + [op] == h;
      var a := AccountOf(before, name);
      if op == Remove(name) {
        ExplainsRemoved(before, name, a);
      } else if a.Gone? {
        ExplainsGone(before, op, name);
      } else {
        ExplainsSince(before, op, name, a.born, a.write, a.locked, a.login);
      }
    }
  }

  // ------------------------------------------------------------------ what the store answers

  lemma RemovedBetween(h: seq<Op>, name: string, b: nat, c: nat)
    requires b < c && c < |h| && IsAdd(h[b], name) && Born(h, name, c)
    ensures !Born(h, name, b)
  {
    var r :| b < r < c && h[r] == Remove(name);
  }

  lemma BornOnce(h: seq<Op>, name: string, b: nat, c: nat)
    requires Born(h, name, b) && Born(h, name, c)
    ensures b == c
  {
    if b < c {
      RemovedBetween(h, name, b, c);
    } else if c < b {
      RemovedBetween(h, name, c, b);
    }
  }

  lemma LastWriteOnce(h: seq<Op>, name: string, b: nat, k: nat, l: nat)
    requires LastWrite(h, name, b, k) && LastWrite(h, name, b, l)
    ensures k == l
  {
  }

  lemma OnlyAccount(h: seq<Op>, name: string, b: nat, k: nat)
    requires Born(h, name, b) && LastWrite(h, name, b, k)
    ensures forall c: nat, l: nat :: Born(h, name, c) && LastWrite(h, name, c, l) ==> c == b && l == k
  {
    hide Born, LastWrite;
    forall c: nat, l: nat | Born(h, name, c) && LastWrite(h, name, c, l) ensures c == b && l == k {
      BornOnce(h, name, b, c);
      LastWriteOnce(h, name, b, k, l);
    }
  }

  lemma GoneMeansUnborn(h: seq<Op>, name: string)
    requires Explains(h, name, Gone)
    ensures forall b: nat :: !Born(h, name, b)
  {
    forall b: nat ensures !Born(h, name, b) {
      if b < |h| && IsAdd(h[b], name) {
        var r :| b < r < |h| && h[r] == Remove(name);
      }
    }
  }

  // A password lets a user in iff: the user was added and not removed since, the last accepted
  // password write since then set this password, and the last Lock or Unlock since is no Lock.
  lemma AuthenticateIff(h: seq<Op>, name: string, password: string)
    ensures Admits(Store(h), name, password)
       <==> exists b: nat, k: nat :: Born(h, name, b) && LastWrite(h, name, b, k)
                           && PasswordOf(h[k]) == password && !LockedSince(h, name, b)
  {
    hide Store, AccountOf, Born, LastWrite, LockedSince, LastLoginIs;
    var a := AccountOf(h, name);
    StoreFollowsAccount(h, name);
    HistoryExplainsAccount(h, name);
    if a.Gone? {
      GoneMeansUnborn(h, name);
    } else {
      OnlyAccount(h, name, a.born, a.write);
    }
  }

  // A user must change the password iff the last accepted write of it was Add or Reset; there is
  // an answer iff the user exists.
  lemma MustChangeIff(h: seq<Op>, name: string)
    ensures MustChange(Store(h), name).Some? <==> exists b: nat :: Born(h, name, b)
    ensures MustChange(Store(h), name) == Some(true)
       <==> exists b: nat, k: nat :: Born(h, name, b) && LastWrite(h, name, b, k) && (h[k].Add? || h[k].Reset?)
  {
    hide Store, AccountOf, Born, LastWrite, LockedSince, LastLoginIs;
    var a := AccountOf(h, name);
    StoreFollowsAccount(h, name);
    HistoryExplainsAccount(h, name);
    if a.Gone? {
      GoneMeansUnborn(h, name);
    } else {
      WriteKind(h, name, a.born, a.write);
      OnlyAccount(h, name, a.born, a.write);
    }
  }

  lemma WriteKind(h: seq<Op>, name: string, b: nat, k: nat)
    requires Born(h, name, b) && LastWrite(h, name, b, k)
    ensures k < |h| && (h[k].Add? || h[k].Reset? || h[k].SetPassword?)
    ensures Hashable(PasswordOf(h[k]))
  {
  }

  // Reset and SetPassword on an existing user always report success.  The new password is in
  // force iff it could be hashed (and then lets the user in unless locked); if not, nothing at all
  // has changed.
  lemma ReportedSuccessIsRealIffHashable(h: seq<Op>, op: Op, b: nat)
    requires (op.Reset? || op.SetPassword?) && Born(h, op.name, b)
    ensures Edit(Store(h), op).1 == Done
    ensures var r := Lookup(Edit(Store(h), op).0, op.name);
            && r.Some? && (r.value.passwordHash == Hash(op.password) <==> Hashable(op.password))
            && (Admits(Edit(Store(h), op).0, op.name, op.password)
                <==> Hashable(op.password) && !LockedSince(h, op.name, b))
    ensures !Hashable(op.password) ==> Edit(Store(h), op).0 == Store(h)
  {
    hide Store, AccountOf, Born, LastWrite, LockedSince, LastLoginIs;
    var a, name := AccountOf(h, op.name), op.name;
    StoreFollowsAccount(h, name);
    HistoryExplainsAccount(h, name);
    if a.Gone? {
      GoneMeansUnborn(h, name);
    } else {
      BornOnce(h, name, a.born, b);
      WriteKind(h, name, a.born, a.write);
      EditRenews(Store(h), op);
    }
  }

  // The listing names every existing user exactly once.
  lemma ListIsTheLiving(h: seq<Op>, name: string)
    ensures Unique(Store(h))
    ensures (exists i :: 0 <= i < |Store(h)| && Info(Store(h)[i]).username == name)
       <==> exists b: nat :: Born(h, name, b)
  {
    hide Store, AccountOf, Born, LastWrite, LockedSince, LastLoginIs;
    StoreFollowsAccount(h, name);
    HistoryExplainsAccount(h, name);
    if AccountOf(h, name).Gone? {
      GoneMeansUnborn(h, name);
    } else {
      assert Info(Store(h)[Place(Store(h), name)]).username == name;
    }
  }

  // The entry of the user born at b whose last password write is at k.
  ghost predicate EntryFrom(h: seq<Op>, entry: UserInfo, b: nat, k: nat) {
    && Born(h, entry.username, b) && LastWrite(h, entry.username, b, k)
    && (entry.locked <==> LockedSince(h, entry.username, b))
    && (entry.forceChange <==> h[k].Add? || h[k].Reset?)
    && LastLoginIs(h, entry.username, b, entry.lastLogin)
  }

  // What the listing says of a user is what the history says.
  lemma ListingTellsHistory(h: seq<Op>, i: nat)
    requires i < |Store(h)|
    ensures var entry := Info(Store(h)[i]);
            exists b: nat, k: nat :: EntryFrom(h, entry, b, k)
  {
    hide Store, AccountOf, Born, LastWrite, LockedSince, LastLoginIs;
    var name := Store(h)[i].username;
    var a := AccountOf(h, name);
    StoreFollowsAccount(h, name);
    HistoryExplainsAccount(h, name);
    LookupFound(Store(h), i);
    WriteKind(h, name, a.born, a.write);
    assert EntryFrom(h, Info(Store(h)[i]), a.born, a.write);
  }

  lemma BirthStays(h: seq<Op>, op: Op, name: string)
    requires Lookup(Store(h), name).Some? && op != Remove(name)
    ensures var a, b := AccountOf(h, name), AccountOf(h + [op], name);
            a.Since? && b.Since? && a.born == b.born < |h|
  {
    hide Lookup, Store, Born, LastWrite, LockedSince, LastLoginIs;
    StoreFollowsAccount(h, name);
    HistoryExplainsAccount(h, name);
    var a := AccountOf(h, name);
    InRange(h, name, a.born, a.write);
    assert (h + [op])[..|h|] == h;
  }

  ghost predicate InBirthOrder(h: seq<Op>) {
    forall i, j :: 0 <= i < j < |Store(h)| ==> Older(h, Store(h)[i].username, Store(h)[j].username)
  }

  ghost predicate Older(h: seq<Op>, name: string, other: string) {
    var a, b := AccountOf(h, name), AccountOf(h, other);
    a.Since? && b.Since? && a.born < b.born
  }

  lemma {:induction false} StoreInBirthOrder(h: seq<Op>)
    ensures InBirthOrder(h)
  {
    if h != [] {
      var before, op := h[..|h| - 1], h[|h| - 1];
      assert before + [op] == h;
      StoreInBirthOrder(before);
      hide AccountOf, Older;
      var users, after := Store(before), Store(h);
      forall i, j | 0 <= i < j < |after| ensures Older(h, after[i].username, after[j].username) {
        StillOlder(before, op, i, j);
      }
    }
  }

  // The place in the list before the operation.
  function OldPlace(users: seq<User>, op: Op, i: nat): nat {
    if op.Remove? && Place(users, op.name) <= i then i + 1 else i
  }

  lemma OldPlaceHolds(users: seq<User>, op: Op, i: nat)
    requires i < |Edit(users, op).0| && Unique(users)
    ensures var was, u := OldPlace(users, op, i), Edit(users, op).0[i];
            if was < |users| then u.username == users[was].username && op != Remove(u.username)
            else was == |users| && i == |Edit(users, op).0| - 1
                 && op.Add? && op.name == u.username && Hashable(op.password) && Lookup(users, op.name) == None
  {
    hide Changed;
    var k := Place(users, op.name);
    if k < |users| {
      ChangedKeepsName(users[k], op);
    }
  }

  lemma StillOlder(h: seq<Op>, op: Op, i: nat, j: nat)
    requires InBirthOrder(h) && i < j < |Edit(Store(h), op).0|
    ensures var after := Edit(Store(h), op).0; Older(h + [op], after[i].username, after[j].username)
  {
    hide Store, Edit, AccountOf;
    var users, after := Store(h), Edit(Store(h), op).0;
    StoreFollowsAccount(h, op.name);
    OldPlaceHolds(users, op, i);
    OldPlaceHolds(users, op, j);
    var k, l := OldPlace(users, op, i), OldPlace(users, op, j);
    LookupFound(users, k);
    BirthStays(h, op, after[i].username);
    if l < |users| {
      LookupFound(users, l);
      BirthStays(h, op, after[j].username);
      assert Older(h, users[k].username, users[l].username);
    } else {
      AddIsBirth(h, op);
    }
  }

  lemma AddIsBirth(h: seq<Op>, op: Op)
    requires op.Add? && Hashable(op.password) && Lookup(Store(h), op.name) == None
    ensures var a := AccountOf(h + [op], op.name); a.Since? && a.born == |h|
  {
    hide Lookup, Store;
    StoreFollowsAccount(h, op.name);
    assert (h + [op])[..|h|] == h;
  }

  // The listing is in the order in which the users it names were added.
  lemma ListingIsInOrder(h: seq<Op>, i: nat, j: nat, b: nat, c: nat)
    requires i < |Store(h)| && Born(h, Info(Store(h)[i]).username, b)
    requires j < |Store(h)| && Born(h, Info(Store(h)[j]).username, c)
    ensures i < j <==> b < c
  {
    hide Store, AccountOf, Born, LastWrite, LockedSince, LastLoginIs;
    StoreInBirthOrder(h);
    BirthIs(h, Store(h)[i].username, b);
    BirthIs(h, Store(h)[j].username, c);
  }

  lemma BirthIs(h: seq<Op>, name: string, b: nat)
    requires Born(h, name, b)
    ensures var a := AccountOf(h, name); a.Since? && a.born == b
  {
    hide AccountOf, Born, LastWrite, LockedSince, LastLoginIs;
    HistoryExplainsAccount(h, name);
    if AccountOf(h, name).Gone? {
      GoneMeansUnborn(h, name);
    } else {
      BornOnce(h, name, AccountOf(h, name).born, b);
    }
  }

  // How an operation answers, from the history and what the disk does: an answer other than Done
  // leaves the file as it was, Done makes it what the longer history says.
  lemma OutcomeIff(h: seq<Op>, op: Op, disk: Disk)
    ensures var (after, outcome) := EditOn(Store(h), op, disk);
            var known := exists b: nat :: Born(h, op.name, b);
            && (outcome == AlreadyExists <==> !disk.readFails && op.Add? && known)
            && (outcome == NotFound <==> !disk.readFails && !op.Add? && !known)
            && (outcome == HashRefused <==> !disk.readFails && op.Add? && !known && |op.password| > 72)
            && (outcome == IoError ==> disk.readFails || disk.writeFails)
            && (disk.readFails ==> outcome == IoError)
            && (outcome == Done ==> !disk.writeFails)
            && after == if outcome == Done then Store(h + [op]) else Store(h)
  {
    hide Born;
    assert (h + [op])[..|h|] == h && Store(h + [op]) == Edit(Store(h), op).0;
    hide Store, Changed;
    ThereIffBorn(h, op.name);
  }

  lemma ThereIffBorn(h: seq<Op>, name: string)
    ensures Place(Store(h), name) < |Store(h)| <==> exists b: nat :: Born(h, name, b)
  {
    hide Store, AccountOf, Born, LastWrite, LockedSince, LastLoginIs;
    StoreFollowsAccount(h, name);
    HistoryExplainsAccount(h, name);
    if AccountOf(h, name).Gone? {
      GoneMeansUnborn(h, name);
    }
  }
}
