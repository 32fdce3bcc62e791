/**
 The user store (internal/auth/store.go) as operations on the list of users that users.json holds.
 `Edit` is what one operation does when reading and writing the file succeed; class FileStore is
 the code.  How the file itself is replaced is in StoreFiles.
 */
module Users {
  import opened Wrappers

  // bcrypt refuses longer passwords.
  const MAX_PASSWORD: nat := 72

  // An ideal hash: it matches the password it was made from and no other.
  datatype Hash = Hash(password: string)

  datatype User = User(username: string, passwordHash: Hash, locked: bool, forceChange: bool,
                       lastLogin: int)

  datatype UserInfo = UserInfo(username: string, locked: bool, lastLogin: int, forceChange: bool)

  datatype Outcome = Done | NotFound | AlreadyExists | HashRefused | IoError

  datatype Op =
    | Add(name: string, password: string)
    | Remove(name: string)
    | Lock(name: string)
    | Unlock(name: string)
    | Reset(name: string, password: string)
    | SetPassword(name: string, password: string)
    | UpdateLastLogin(name: string, now: int)

  const NEVER: int := 0

  function HashPassword(password: string): Option<Hash> {
    if |password| > MAX_PASSWORD then None else Some(Hash(password))
  }

  predicate CheckPassword(password: string, hash: Hash) {
    hash.password == password
  }

  // The first user of that name, or |users|.
  function Place(users: seq<User>, name: string): (i: nat)
    ensures i <= |users|
    ensures i < |users| ==> users[i].username == name
    ensures forall j :: 0 <= j < i ==> users[j].username != name
  {
    if users == [] then 0
    else if users[0].username == name then 0
    else 1 + Place(users[1..], name)
  }

  // What the operations on an existing user do to the record; a password that cannot be hashed
  // leaves it as it was.
  function Changed(u: User, op: Op): User {
    match op
    case Lock(_) => u.(locked := true)
    case Unlock(_) => u.(locked := false)
    case Reset(_, password) =>
      var h := HashPassword(password);
      if h.None? then u else u.(passwordHash := h.value, forceChange := true)
    case SetPassword(_, password) =>
      var h := HashPassword(password);
      if h.None? then u else u.(passwordHash := h.value, forceChange := false)
    case UpdateLastLogin(_, now) => u.(lastLogin := now)
    case _ => u
  }

  function Edit(users: seq<User>, op: Op): (seq<User>, Outcome) {
    var i := Place(users, op.name);
    match op
    case Add(name, password) =>
      if i < |users| then (users, AlreadyExists)
      else if HashPassword(password).None? then (users, HashRefused)
      else (users + [User(name, HashPassword(password).value, false, true, NEVER)], Done)
    case Remove(name) =>
      if i == |users| then (users, NotFound) else (users[..i] + users[i + 1..], Done)
    case _ =>
      if i == |users| then (users, NotFound) else (users[i := Changed(users[i], op)], Done)
  }

  // Whether the operating system fails to read, or to replace, users.json this time.
  datatype Disk = Disk(readFails: bool, writeFails: bool)

  function EditOn(users: seq<User>, op: Op, disk: Disk): (seq<User>, Outcome) {
    var (after, outcome) := Edit(users, op);
    if disk.readFails || (outcome == Done && disk.writeFails) then (users, IoError)
    else (after, outcome)
  }

  predicate Admits(users: seq<User>, name: string, password: string) {
    var i := Place(users, name);
    i < |users| && !users[i].locked && CheckPassword(password, users[i].passwordHash)
  }

  function MustChange(users: seq<User>, name: string): Option<bool> {
    var i := Place(users, name);
    if i == |users| then None else Some(users[i].forceChange)
  }

  function Info(u: User): UserInfo {
    UserInfo(u.username, u.locked, u.lastLogin, u.forceChange)
  }

  // ------------------------------------------------------------------ the code

  method FindUserIdx(users: seq<User>, name: string) returns (idx: int)
    ensures -1 <= idx < |users|
    ensures idx == -1 <==> forall j :: 0 <= j < |users| ==> users[j].username != name
    ensures idx >= 0 ==> users[idx].username == name
                         && forall j :: 0 <= j < idx ==> users[j].username != name
  {
    for i := 0 to |users|
      invariant forall j :: 0 <= j < i ==> users[j].username != name
    {
      if users[i].username == name {
        return i;
      }
    }
    return -1;
  }

  // Reading and writing users.json may fail; a failed write leaves the file as it was.
  class FileStore {
    var file: seq<User>

    constructor ()
      ensures file == []
    {
      file := [];
    }

    method ReadLocked(disk: Disk) returns (data: Option<seq<User>>)
      ensures data == if disk.readFails then None else Some(file)
    {
      if disk.readFails {
        return None;
      }
      return Some(file);
    }

    method WriteFile(users: seq<User>, disk: Disk) returns (outcome: Outcome)
      modifies this
      ensures if disk.writeFails then outcome == IoError && file == old(file)
              else outcome == Done && file == users
    {
      if disk.writeFails {
        return IoError;
      }
      file := users;
      return Done;
    }

    method AddUser(name: string, password: string, disk: Disk) returns (outcome: Outcome)
      modifies this
      ensures (file, outcome) == EditOn(old(file), Add(name, password), disk)
    {
      var data := ReadLocked(disk);
      if data.None? {
        return IoError;
      }
      var users := data.value;
      var idx := FindUserIdx(users, name);
      if idx >= 0 {
        return AlreadyExists;
      }
      var hash := HashPassword(password);
      if hash.None? {
        return HashRefused;
      }
      outcome := WriteFile(users + [User(name, hash.value, false, true, NEVER)], disk);
    }

    method RemoveUser(name: string, disk: Disk) returns (outcome: Outcome)
      modifies this
      ensures (file, outcome) == EditOn(old(file), Remove(name), disk)
    {
      var data := ReadLocked(disk);
      if data.None? {
        return IoError;
      }
      var users := data.value;
      var idx := FindUserIdx(users, name);
      if idx < 0 {
        return NotFound;
      }
      outcome := WriteFile(users[..idx] + users[idx + 1..], disk);
    }

    // Lock, Unlock, Reset, SetPassword and UpdateLastLogin.
    method ModifyUser(op: Op, disk: Disk) returns (outcome: Outcome)
      requires !op.Add? && !op.Remove?
      modifies this
      ensures (file, outcome) == EditOn(old(file), op, disk)
    {
      var data := ReadLocked(disk);
      if data.None? {
        return IoError;
      }
      var users := data.value;
      var idx := FindUserIdx(users, op.name);
      if idx < 0 {
        return NotFound;
      }
      var u := users[idx];
      match op {
        case Lock(_) => u := u.(locked := true);
        case Unlock(_) => u := u.(locked := false);
        case Reset(_, password) =>
          var hash := HashPassword(password);
          if hash.Some? {
            u := u.(passwordHash := hash.value);
            u := u.(forceChange := true);
          }
        case SetPassword(_, password) =>
          var hash := HashPassword(password);
          if hash.Some? {
            u := u.(passwordHash := hash.value);
            u := u.(forceChange := false);
          }
        case UpdateLastLogin(_, now) => u := u.(lastLogin := now);
      }
      outcome := WriteFile(users[idx := u], disk);
    }

    method Authenticate(name: string, password: string, disk: Disk) returns (result: Option<bool>)
      ensures result == if disk.readFails then None else Some(Admits(file, name, password))
    {
      var data := ReadLocked(disk);
      if data.None? {
        return None;
      }
      var idx := FindUserIdx(data.value, name);
      if idx < 0 || data.value[idx].locked {
        return Some(false);
      }
      return Some(CheckPassword(password, data.value[idx].passwordHash));
    }

    method MustChangePassword(name: string, disk: Disk) returns (outcome: Outcome, force: bool)
      ensures match outcome
              case IoError => disk.readFails
              case NotFound => !disk.readFails && MustChange(file, name) == None
              case Done => !disk.readFails && MustChange(file, name) == Some(force)
              case _ => false
    {
      force := false;
      var data := ReadLocked(disk);
      if data.None? {
        return IoError, false;
      }
      var idx := FindUserIdx(data.value, name);
      if idx < 0 {
        return NotFound, false;
      }
      return Done, data.value[idx].forceChange;
    }

    method List(disk: Disk) returns (infos: Option<seq<UserInfo>>)
      ensures infos.None? <==> disk.readFails
      ensures infos.Some? ==> |infos.value| == |file|
                              && forall i :: 0 <= i < |file| ==> infos.value[i] == Info(file[i])
    {
      var data := ReadLocked(disk);
      if data.None? {
        return None;
      }
      var out: seq<UserInfo> := [];
      for i := 0 to |data.value|
        invariant |out| == i && forall j :: 0 <= j < i ==> out[j] == Info(data.value[j])
      {
        var u := data.value[i];
        out := out + [UserInfo(u.username, u.locked, u.lastLogin, u.forceChange)];
      }
      return Some(out);
    }
  }
}
