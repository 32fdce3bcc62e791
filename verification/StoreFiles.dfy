/**
 How users.json is replaced (readLocked, write, withFileLock; internal/auth/store.go:219-264),
 step by step: any number of writers and lock-free readers, in any processes, interleaved in any
 way, with failures and crashes between any two steps.  Files are inodes; users.json and
 users.json.tmp are directory entries that name them.
 */
module StoreFiles {
  import opened Wrappers
  import opened Users
  import opened UserHistory

  // encoding/json: all that is assumed of it is that decoding undoes encoding.
  datatype Codec = Codec(enc: seq<User> -> string, dec: string -> Option<seq<User>>)

  ghost predicate RoundTrips(c: Codec) {
    forall users :: c.dec(c.enc(users)) == Some(users)
  }

  datatype Pc =
    | Idle
    // A reader, that opened the file after `at` commits and `answered` answers.
    | Reading(ino: nat, got: string, at: nat, answered: nat)
    | Waiting(op: Op)                                        // for the file lock
    | Holding(op: Op)
    | Loading(op: Op, ino: nat, got: string)
    | Saving(op: Op, data: string)
    | Writing(op: Op, data: string, ino: nat, off: nat)      // os.WriteFile on the temporary file
    | Renaming(op: Op)
    | Removing(op: Op)                                       // the temporary file, after a failed rename
    | Leaving(op: Op, outcome: Outcome)                      // about to release the lock
    | Dead

  datatype Ack = Ack(who: nat, op: Op, outcome: Outcome, at: nat)
  datatype Report = Report(raw: string, at: nat, answered: nat)

  // Inode contents, the inode that is users.json, the one that is users.json.tmp if there is one.
  // The rest records the past and is read by no step: the operations committed and by whom, the
  // inodes that have been users.json, the answers given and the contents readers have seen.
  datatype Files = Files(
    disk: seq<string>, main: nat, tmp: Option<nat>,
    commits: seq<Op>, authors: seq<nat>, linked: seq<nat>, acks: seq<Ack>, reports: seq<Report>)

  datatype Sys = Sys(files: Files, holder: Option<nat>, pcs: seq<Pc>)

  datatype Action =
    | Call(op: Op) | Flock | Open | ReadChunk(n: nat) | Eof | OpenTmp | WriteChunk(n: nat) | CloseTmp
    | Rename | RemoveTmp | Return | Fail | Crash

  datatype Label = Spawn | Step(who: nat, action: Action)

  // What one actor's step makes of the files, the lock and itself.
  datatype Next = Next(files: Files, holder: Option<nat>, pc: Pc)

  function Zeros(n: nat): string {
    seq(n, i => 0 as char)
  }

  // A write at an offset: past the end it leaves a hole.
  function WriteAt(content: string, off: nat, chunk: string): string {
    (if off <= |content| then content[..off] else content + Zeros(off - |content|))
    + chunk
    + (if off + |chunk| < |content| then content[off + |chunk|..] else "")
  }

  function Chunk(s: string, off: nat, n: nat): string {
    if off >= |s| then "" else if off + n < |s| then s[off..off + n] else s[off..]
  }

  function Acked(f: Files, who: nat, op: Op, outcome: Outcome): Files {
    f.(acks := f.acks + [Ack(who, op, outcome, |f.commits|)])
  }

  function Act(f: Files, holder: Option<nat>, who: nat, pc: Pc, action: Action, c: Codec): Next {
    match action
    case Call(op) => Next(f, holder, if pc.Idle? then Waiting(op) else pc)
    case Flock =>
      if pc.Waiting? && holder.None? then Next(f, Some(who), Holding(pc.op)) else Next(f, holder, pc)
    case Open =>
      Next(f, holder, if pc.Idle? then Reading(f.main, "", |f.commits|, |f.acks|)
                      else if pc.Holding? then Loading(pc.op, f.main, "")
                      else pc)
    case ReadChunk(n) =>
      Next(f, holder,
           if (pc.Reading? || pc.Loading?) && pc.ino < |f.disk| then
             pc.(got := pc.got + Chunk(f.disk[pc.ino], |pc.got|, n))
           else pc)
    case Eof =>
      if (pc.Reading? || pc.Loading?) && pc.ino < |f.disk| && |pc.got| >= |f.disk[pc.ino]| then
        if pc.Reading? then Next(f.(reports := f.reports + [Report(pc.got, pc.at, pc.answered)]), holder, Idle)
        else Next(f, holder, Decide(pc.op, c.dec(pc.got), c))
      else Next(f, holder, pc)
    case OpenTmp =>
      if pc.Saving? then
        if f.tmp.Some? && f.tmp.value < |f.disk| then
          Next(f.(disk := f.disk[f.tmp.value := ""]), holder, Writing(pc.op, pc.data, f.tmp.value, 0))
        else
          Next(f.(disk := f.disk + [""], tmp := Some(|f.disk|)), holder, Writing(pc.op, pc.data, |f.disk|, 0))
      else Next(f, holder, pc)
    case WriteChunk(n) =>
      if pc.Writing? && pc.ino < |f.disk| then
        var chunk := Chunk(pc.data, pc.off, n);
        Next(f.(disk := f.disk[pc.ino := WriteAt(f.disk[pc.ino], pc.off, chunk)]), holder,
             pc.(off := pc.off + |chunk|))
      else Next(f, holder, pc)
    case CloseTmp =>
      Next(f, holder, if pc.Writing? && pc.off == |pc.data| then Renaming(pc.op) else pc)
    case Rename =>
      if pc.Renaming? && f.tmp.Some? then
        Next(f.(main := f.tmp.value, tmp := None, commits := f.commits + [pc.op],
                authors := f.authors + [who], linked := f.linked + [f.tmp.value]),
             holder, Leaving(pc.op, Done))
      else Next(f, holder, pc)
    case RemoveTmp =>
      if pc.Removing? then Next(f.(tmp := None), holder, Leaving(pc.op, IoError)) else Next(f, holder, pc)
    case Return =>
      if pc.Leaving? then Next(Acked(f, who, pc.op, pc.outcome), None, Idle) else Next(f, holder, pc)
    case Fail =>
      if pc.Waiting? then Next(Acked(f, who, pc.op, IoError), holder, Idle)
      else Next(f, holder, Failed(pc))
    case Crash => Next(f, if holder == Some(who) then None else holder, Dead)
  }

  // What the writer does with the file it has read.
  function Decide(op: Op, data: Option<seq<User>>, c: Codec): Pc {
    if data.None? then Leaving(op, IoError)
    else
      var (after, outcome) := Edit(data.value, op);
      if outcome == Done then Saving(op, c.enc(after)) else Leaving(op, outcome)
  }

  // The system call the actor is at fails.  A failed write leaves the temporary file behind.
  function Failed(pc: Pc): Pc {
    match pc
    case Reading(_, _, _, _) => Idle
    case Renaming(op) => Removing(op)
    case Holding(op) => Leaving(op, IoError)
    case Loading(op, _, _) => Leaving(op, IoError)
    case Saving(op, _) => Leaving(op, IoError)
    case Writing(op, _, _, _) => Leaving(op, IoError)
    case Removing(op) => Leaving(op, IoError)
    case _ => pc
  }

  function Apply(s: Sys, l: Label, c: Codec): Sys {
    match l
    case Spawn => s.(pcs := s.pcs + [Idle])
    case Step(who, action) =>
      if who >= |s.pcs| then s
      else
        var n := Act(s.files, s.holder, who, s.pcs[who], action, c);
        Sys(n.files, n.holder, s.pcs[who := n.pc])
  }

  function Exec(labels: seq<Label>, c: Codec): Sys {
    if labels == [] then Sys(Files([c.enc([])], 0, None, [], [], [0], [], []), None, [])
    else Apply(Exec(labels[..|labels| - 1], c), labels[|labels| - 1], c)
  }

  // ------------------------------------------------------------------ the invariant

  // Every inode that was ever users.json holds, complete, what the commits up to then made.
  ghost predicate Published(f: Files, c: Codec) {
    && |f.linked| == |f.commits| + 1 && f.main == f.linked[|f.commits|]
    && forall k | 0 <= k < |f.linked| ::
         f.linked[k] < |f.disk| && f.disk[f.linked[k]] == c.enc(Store(f.commits[..k]))
  }

  // The temporary file is none of them.
  ghost predicate TmpApart(f: Files) {
    f.tmp.Some? ==> f.tmp.value < |f.disk| && f.tmp.value !in f.linked
  }

  // What an answer says about the commits: Done means the operation is commit number `at`; a
  // refusal, that the operation has no effect on what the first `at` commits made.
  ghost predicate AckOk(f: Files, ack: Ack) {
    && ack.at <= |f.commits| == |f.authors|
    && match ack.outcome
       case Done => ack.at > 0 && f.commits[ack.at - 1] == ack.op && f.authors[ack.at - 1] == ack.who
       case IoError => true
       case _ => var users := Store(f.commits[..ack.at]); Edit(users, ack.op) == (users, ack.outcome)
  }

  ghost predicate AcksOk(f: Files) {
    && |f.commits| == |f.authors|
    && (forall i :: 0 <= i < |f.acks| ==> AckOk(f, f.acks[i]))
    && (forall i, j :: 0 <= i < j < |f.acks| && f.acks[i].outcome == Done && f.acks[j].outcome == Done
                       ==> f.acks[i].at < f.acks[j].at)
  }

  // Every commit that one of the first `answered` answers stands for is among the first `at`.
  ghost predicate Covers(f: Files, at: nat, answered: nat) {
    answered <= |f.acks| && forall j :: 0 <= j < answered && f.acks[j].outcome == Done ==> f.acks[j].at <= at
  }

  ghost predicate ReportOk(f: Files, r: Report, c: Codec) {
    && r.at <= |f.commits| && r.raw == c.enc(Store(f.commits[..r.at]))
    && Covers(f, r.at, r.answered)
  }

  ghost predicate ReportsOk(f: Files, c: Codec) {
    forall i :: 0 <= i < |f.reports| ==> ReportOk(f, f.reports[i], c)
  }

  ghost predicate FilesOk(f: Files, c: Codec) {
    Published(f, c) && TmpApart(f) && AcksOk(f) && ReportsOk(f, c)
  }

  predicate InSection(pc: Pc) {
    !pc.Idle? && !pc.Reading? && !pc.Waiting? && !pc.Dead?
  }

  // A reader has a prefix of a file that was users.json when it was opened.
  ghost predicate ReaderOk(f: Files, pc: Pc) {
    pc.Reading? ==>
      && pc.at < |f.linked| && f.linked[pc.at] == pc.ino && pc.ino < |f.disk| && pc.got <= f.disk[pc.ino]
      && Covers(f, pc.at, pc.answered)
  }

  // No answer yet stands for the last commit.
  ghost predicate Unanswered(f: Files) {
    forall i :: 0 <= i < |f.acks| && f.acks[i].outcome == Done ==> f.acks[i].at < |f.commits|
  }

  function Edited(f: Files, op: Op): (seq<User>, Outcome) {
    Edit(Store(f.commits), op)
  }

  ghost predicate HolderOk(f: Files, who: nat, pc: Pc, c: Codec) {
    match pc
    case Loading(_, ino, got) => ino == f.main && ino < |f.disk| && got <= f.disk[ino]
    case Saving(op, data) => Edited(f, op).1 == Done && data == c.enc(Edited(f, op).0)
    case Writing(op, data, ino, off) =>
      && Edited(f, op).1 == Done && data == c.enc(Edited(f, op).0)
      && f.tmp == Some(ino) && ino < |f.disk| && off <= |data| && f.disk[ino] == data[..off]
    case Renaming(op) =>
      && Edited(f, op).1 == Done
      && f.tmp.Some? && f.tmp.value < |f.disk| && f.disk[f.tmp.value] == c.enc(Edited(f, op).0)
    case Leaving(op, outcome) =>
      AckOk(f, Ack(who, op, outcome, |f.commits|)) && (outcome == Done ==> Unanswered(f))
    case _ => true
  }

  ghost predicate ActorOk(f: Files, holder: Option<nat>, who: nat, pc: Pc, c: Codec) {
    && ReaderOk(f, pc)
    && (InSection(pc) <==> holder == Some(who))
    && (InSection(pc) ==> HolderOk(f, who, pc, c))
  }

  ghost predicate Inv(s: Sys, c: Codec) {
    && FilesOk(s.files, c)
    && (s.holder.Some? ==> s.holder.value < |s.pcs|)
    && forall a :: 0 <= a < |s.pcs| ==> ActorOk(s.files, s.holder, a, s.pcs[a], c)
  }

  // ------------------------------------------------------------------ what a step leaves alone

  // Readers of files already published, and commits made, are not disturbed.
  ghost predicate Grows(f: Files, g: Files) {
    && f.commits <= g.commits && f.linked <= g.linked && f.acks <= g.acks && |f.disk| <= |g.disk|
    && forall k :: 0 <= k < |f.linked| && f.linked[k] < |f.disk| ==> g.disk[f.linked[k]] == f.disk[f.linked[k]]
  }

  // For the holder of the lock, nothing changes but answers that are no commits, and reports.
  ghost predicate Aside(f: Files, g: Files) {
    && g == f.(acks := g.acks, reports := g.reports)
    && (Unanswered(f) ==> Unanswered(g))
  }

  ghost predicate StepOk(f: Files, holder: Option<nat>, who: nat, n: Next, c: Codec) {
    && FilesOk(n.files, c)
    && ActorOk(n.files, n.holder, who, n.pc, c)
    && Grows(f, n.files)
    && (holder == Some(who) || n.holder == holder || (holder.None? && n.holder == Some(who)))
    && (holder == Some(who) ==> n.holder == holder || n.holder.None?)
    && (holder.Some? && holder != Some(who) ==> Aside(f, n.files))
  }

  lemma ReaderStays(f: Files, g: Files, pc: Pc)
    requires ReaderOk(f, pc) && Grows(f, g)
    ensures ReaderOk(g, pc)
  {
  }

  lemma HolderStays(f: Files, g: Files, who: nat, pc: Pc, c: Codec)
    requires HolderOk(f, who, pc, c) && Aside(f, g)
    ensures HolderOk(g, who, pc, c)
  {
  }

  lemma OthersStay(f: Files, holder: Option<nat>, who: nat, n: Next, a: nat, pc: Pc, c: Codec)
    requires StepOk(f, holder, who, n, c) && a != who && ActorOk(f, holder, a, pc, c)
    ensures ActorOk(n.files, n.holder, a, pc, c)
  {
    hide HolderOk, ReaderOk, Grows, Aside, FilesOk;
    ReaderStays(f, n.files, pc);
    if holder == Some(a) {
      HolderStays(f, n.files, a, pc, c);
    }
  }

  // ------------------------------------------------------------------ the steps

  // Steps that touch no file and leave the lock alone.
  lemma MoveOnly(f: Files, holder: Option<nat>, who: nat, pc: Pc, to: Pc, c: Codec)
    requires FilesOk(f, c) && ActorOk(f, holder, who, pc, c)
    requires InSection(to) == InSection(pc) && ReaderOk(f, to)
    requires InSection(to) ==> HolderOk(f, who, to, c)
    ensures StepOk(f, holder, who, Next(f, holder, to), c)
  {
    hide HolderOk, ReaderOk, FilesOk;
  }

  lemma ChunkExtends(s: string, got: string, n: nat)
    requires got <= s
    ensures got + Chunk(s, |got|, n) <= s
  {
  }

  lemma ReadChunkOk(f: Files, holder: Option<nat>, who: nat, pc: Pc, n: nat, c: Codec)
    requires FilesOk(f, c) && ActorOk(f, holder, who, pc, c)
    ensures StepOk(f, holder, who, Act(f, holder, who, pc, ReadChunk(n), c), c)
  {
    hide FilesOk, StepOk, Chunk;
    if (pc.Reading? || pc.Loading?) && pc.ino < |f.disk| {
      ChunkExtends(f.disk[pc.ino], pc.got, n);
    }
    MoveOnly(f, holder, who, pc, Act(f, holder, who, pc, ReadChunk(n), c).pc, c);
  }

  lemma OpenOk(f: Files, holder: Option<nat>, who: nat, pc: Pc, c: Codec)
    requires FilesOk(f, c) && ActorOk(f, holder, who, pc, c)
    ensures StepOk(f, holder, who, Act(f, holder, who, pc, Open, c), c)
  {
    hide StepOk;
    MoveOnly(f, holder, who, pc, Act(f, holder, who, pc, Open, c).pc, c);
  }

  // What the holder reads is what all commits so far made.
  lemma LoadedIsStore(f: Files, c: Codec)
    requires FilesOk(f, c) && RoundTrips(c) && f.main < |f.disk|
    ensures c.dec(f.disk[f.main]) == Some(Store(f.commits))
  {
    assert f.commits[..|f.commits|] == f.commits;
    assert f.disk[f.linked[|f.commits|]] == c.enc(Store(f.commits));
  }

  lemma EditRefusal(users: seq<User>, op: Op)
    ensures Edit(users, op).1 == Done || Edit(users, op) == (users, Edit(users, op).1)
    ensures Edit(users, op).1 != IoError
  {
  }

  lemma DecideOk(f: Files, who: nat, op: Op, c: Codec)
    requires AcksOk(f)
    ensures var pc := Decide(op, Some(Store(f.commits)), c); InSection(pc) && HolderOk(f, who, pc, c)
  {
    EditRefusal(Store(f.commits), op);
    assert f.commits[..|f.commits|] == f.commits;
  }

  lemma LoadEofOk(f: Files, holder: Option<nat>, who: nat, pc: Pc, c: Codec)
    requires FilesOk(f, c) && RoundTrips(c) && ActorOk(f, holder, who, pc, c) && pc.Loading?
    ensures StepOk(f, holder, who, Act(f, holder, who, pc, Eof, c), c)
  {
    hide StepOk, RoundTrips, Decide, Edit, Store;
    if |pc.got| >= |f.disk[pc.ino]| {
      assert pc.got == f.disk[pc.ino];
      LoadedIsStore(f, c);
      DecideOk(f, who, pc.op, c);
    }
    MoveOnly(f, holder, who, pc, Act(f, holder, who, pc, Eof, c).pc, c);
  }

  lemma ReadEofOk(f: Files, holder: Option<nat>, who: nat, pc: Pc, c: Codec)
    requires FilesOk(f, c) && ActorOk(f, holder, who, pc, c) && pc.Reading?
    ensures StepOk(f, holder, who, Act(f, holder, who, pc, Eof, c), c)
  {
    hide Store, Edit;
    if |pc.got| >= |f.disk[pc.ino]| {
      assert pc.got == f.disk[f.linked[pc.at]];
    }
  }

  lemma OpenTmpOk(f: Files, holder: Option<nat>, who: nat, pc: Pc, c: Codec)
    requires FilesOk(f, c) && ActorOk(f, holder, who, pc, c)
    ensures StepOk(f, holder, who, Act(f, holder, who, pc, OpenTmp, c), c)
  {
    hide Store, Edit;
    if !pc.Saving? {
      MoveOnly(f, holder, who, pc, pc, c);
    }
  }

  lemma WriteAtEnd(data: string, off: nat, n: nat)
    requires off <= |data|
    ensures var chunk := Chunk(data, off, n);
            off + |chunk| <= |data| && WriteAt(data[..off], off, chunk) == data[..off + |chunk|]
  {
  }

  lemma WriteChunkOk(f: Files, holder: Option<nat>, who: nat, pc: Pc, n: nat, c: Codec)
    requires FilesOk(f, c) && ActorOk(f, holder, who, pc, c)
    ensures StepOk(f, holder, who, Act(f, holder, who, pc, WriteChunk(n), c), c)
  {
    hide Store, Edit, WriteAt, Chunk;
    if !pc.Writing? {
      MoveOnly(f, holder, who, pc, pc, c);
    } else {
      WriteAtEnd(pc.data, pc.off, n);
    }
  }

  lemma CloseTmpOk(f: Files, holder: Option<nat>, who: nat, pc: Pc, c: Codec)
    requires FilesOk(f, c) && ActorOk(f, holder, who, pc, c)
    ensures StepOk(f, holder, who, Act(f, holder, who, pc, CloseTmp, c), c)
  {
    hide Store, Edit, FilesOk, StepOk;
    if pc.Writing? && pc.off == |pc.data| {
      assert pc.data[..pc.off] == pc.data;
    }
    MoveOnly(f, holder, who, pc, Act(f, holder, who, pc, CloseTmp, c).pc, c);
  }

  // What earlier commits made is still what they made.
  lemma PrefixesStay(f: Files, op: Op)
    ensures forall k: nat | k <= |f.commits| :: (f.commits + [op])[..k] == f.commits[..k]
    ensures Store(f.commits + [op]) == Edited(f, op).0
    ensures (f.commits + [op])[..|f.commits| + 1] == f.commits + [op]
  {
    hide Edit;
    assert (f.commits + [op])[..|f.commits|] == f.commits;
  }

  lemma RenamePublishes(f: Files, who: nat, pc: Pc, c: Codec)
    requires FilesOk(f, c) && pc.Renaming? && HolderOk(f, who, pc, c)
    ensures Published(Act(f, Some(who), who, pc, Rename, c).files, c)
  {
    PrefixesStay(f, pc.op);
    hide Edit, Store, Edited, AcksOk, ReportsOk;
  }

  lemma RenameKeepsReports(f: Files, g: Files, op: Op, c: Codec)
    requires ReportsOk(f, c) && g.commits == f.commits + [op] && g.reports == f.reports && g.acks == f.acks
    ensures ReportsOk(g, c)
  {
    PrefixesStay(f, op);
    hide Edit, Store, Edited;
  }

  lemma RenameKeepsAcks(f: Files, who: nat, op: Op, g: Files)
    requires AcksOk(f)
    requires g.commits == f.commits + [op] && g.authors == f.authors + [who] && g.acks == f.acks
    ensures AcksOk(g) && Unanswered(g) && AckOk(g, Ack(who, op, Done, |g.commits|))
  {
    hide Store, Edit;
    forall i | 0 <= i < |f.acks| ensures AckOk(g, f.acks[i]) {
      var at := f.acks[i].at;
      assert AckOk(f, f.acks[i]);
      assert g.commits[..at] == f.commits[..at];
    }
  }

  lemma RenameOk(f: Files, holder: Option<nat>, who: nat, pc: Pc, c: Codec)
    requires FilesOk(f, c) && ActorOk(f, holder, who, pc, c)
    ensures StepOk(f, holder, who, Act(f, holder, who, pc, Rename, c), c)
  {
    hide Store, Edit, Published, AckOk, AcksOk, ReportsOk, Unanswered;
    if !pc.Renaming? {
      MoveOnly(f, holder, who, pc, pc, c);
    } else {
      RenamePublishes(f, who, pc, c);
      RenameKeepsReports(f, Act(f, holder, who, pc, Rename, c).files, pc.op, c);
      RenameKeepsAcks(f, who, pc.op, Act(f, holder, who, pc, Rename, c).files);
    }
  }

  lemma AckKeepsFiles(f: Files, who: nat, op: Op, outcome: Outcome, c: Codec)
    requires FilesOk(f, c) && AckOk(f, Ack(who, op, outcome, |f.commits|))
    requires outcome == Done ==> Unanswered(f)
    ensures FilesOk(Acked(f, who, op, outcome), c)
  {
    hide Store, Edit;
  }

  lemma ReturnOk(f: Files, holder: Option<nat>, who: nat, pc: Pc, c: Codec)
    requires FilesOk(f, c) && ActorOk(f, holder, who, pc, c)
    ensures StepOk(f, holder, who, Act(f, holder, who, pc, Return, c), c)
  {
    hide FilesOk, AckOk, Unanswered, Store, Edit;
    if !pc.Leaving? {
      MoveOnly(f, holder, who, pc, pc, c);
    } else {
      AckKeepsFiles(f, who, pc.op, pc.outcome, c);
    }
  }

  lemma FailOk(f: Files, holder: Option<nat>, who: nat, pc: Pc, c: Codec)
    requires FilesOk(f, c) && ActorOk(f, holder, who, pc, c)
    ensures StepOk(f, holder, who, Act(f, holder, who, pc, Fail, c), c)
  {
    hide FilesOk, Store, Edit;
    assert |f.commits| == |f.authors| by { InStep(f, c); }
    if pc.Waiting? {
      AckKeepsFiles(f, who, pc.op, IoError, c);
    } else {
      MoveOnly(f, holder, who, pc, Failed(pc), c);
    }
  }

  lemma InStep(f: Files, c: Codec)
    requires FilesOk(f, c)
    ensures |f.commits| == |f.authors| && f.main < |f.disk|
    ensures |f.commits| < |f.linked| && f.linked[|f.commits|] == f.main
  {
  }

  lemma OtherOk(f: Files, holder: Option<nat>, who: nat, pc: Pc, action: Action, c: Codec)
    requires FilesOk(f, c) && ActorOk(f, holder, who, pc, c)
    requires action.Call? || action.Flock? || action.RemoveTmp? || action.Crash?
    ensures StepOk(f, holder, who, Act(f, holder, who, pc, action, c), c)
  {
    hide Store, Edit;
  }

  lemma ActOk(f: Files, holder: Option<nat>, who: nat, pc: Pc, action: Action, c: Codec)
    requires RoundTrips(c) && FilesOk(f, c) && ActorOk(f, holder, who, pc, c)
    ensures StepOk(f, holder, who, Act(f, holder, who, pc, action, c), c)
  {
    hide FilesOk, StepOk, ActorOk;
    match action {
      case ReadChunk(n) => ReadChunkOk(f, holder, who, pc, n, c);
      case Open => OpenOk(f, holder, who, pc, c);
      case Eof =>
        if pc.Loading? {
          LoadEofOk(f, holder, who, pc, c);
        } else if pc.Reading? {
          ReadEofOk(f, holder, who, pc, c);
        } else {
          MoveOnlyStays(f, holder, who, pc, c);
        }
      case OpenTmp => OpenTmpOk(f, holder, who, pc, c);
      case WriteChunk(n) => WriteChunkOk(f, holder, who, pc, n, c);
      case CloseTmp => CloseTmpOk(f, holder, who, pc, c);
      case Rename => RenameOk(f, holder, who, pc, c);
      case Return => ReturnOk(f, holder, who, pc, c);
      case Fail => FailOk(f, holder, who, pc, c);
      case _ => OtherOk(f, holder, who, pc, action, c);
    }
  }

  lemma MoveOnlyStays(f: Files, holder: Option<nat>, who: nat, pc: Pc, c: Codec)
    requires FilesOk(f, c) && ActorOk(f, holder, who, pc, c)
    ensures StepOk(f, holder, who, Next(f, holder, pc), c)
  {
    MoveOnly(f, holder, who, pc, pc, c);
  }

  // ------------------------------------------------------------------ every run

  lemma ApplyKeeps(s: Sys, l: Label, c: Codec)
    requires RoundTrips(c) && Inv(s, c)
    ensures Inv(Apply(s, l, c), c)
  {
    hide Act, ActorOk, FilesOk, StepOk, Aside, Grows, RoundTrips;
    match l {
      case Spawn => SpawnOk(s, c);
      case Step(who, action) =>
        if who < |s.pcs| {
          var n := Act(s.files, s.holder, who, s.pcs[who], action, c);
          ActOk(s.files, s.holder, who, s.pcs[who], action, c);
          StepGives(s.files, s.holder, who, n, c);
          forall a | 0 <= a < |s.pcs| && a != who ensures ActorOk(n.files, n.holder, a, s.pcs[a], c) {
            OthersStay(s.files, s.holder, who, n, a, s.pcs[a], c);
          }
        }
    }
  }

  lemma StepGives(f: Files, holder: Option<nat>, who: nat, n: Next, c: Codec)
    requires StepOk(f, holder, who, n, c)
    ensures FilesOk(n.files, c) && ActorOk(n.files, n.holder, who, n.pc, c)
    ensures n.holder.Some? ==> n.holder == holder || n.holder == Some(who)
  {
    hide FilesOk, ActorOk;
  }

  lemma SpawnOk(s: Sys, c: Codec)
    requires Inv(s, c)
    ensures Inv(Apply(s, Spawn, c), c)
  {
    hide FilesOk, HolderOk;
  }

  lemma {:induction false} ExecKeeps(labels: seq<Label>, c: Codec)
    requires RoundTrips(c)
    ensures Inv(Exec(labels, c), c)
  {
    if labels != [] {
      hide Inv, Apply, RoundTrips;
      ExecKeeps(labels[..|labels| - 1], c);
      ApplyKeeps(Exec(labels[..|labels| - 1], c), labels[|labels| - 1], c);
    }
  }

  // ------------------------------------------------------------------ what that means

  // At every moment users.json is one complete file: the result of exactly the operations
  // committed so far.  A file being written is never that file, nor one a reader may hold.
  lemma UsersFileIsAlwaysWhole(labels: seq<Label>, c: Codec)
    requires RoundTrips(c)
    ensures var f := Exec(labels, c).files;
            && f.main < |f.disk| && c.dec(f.disk[f.main]) == Some(Store(f.commits))
            && (f.tmp.Some? ==> f.tmp.value != f.main && f.tmp.value !in f.linked)
  {
    hide Exec, Store, RoundTrips;
    ExecKeeps(labels, c);
    InStep(Exec(labels, c).files, c);
    LoadedIsStore(Exec(labels, c).files, c);
  }

  // Whatever a reader has read to its end is the state after some prefix of the commits, and that
  // prefix has every commit that had been answered when the reader opened the file.
  lemma ReadersSeeCommits(labels: seq<Label>, c: Codec, r: Report)
    requires RoundTrips(c) && r in Exec(labels, c).files.reports
    ensures var f := Exec(labels, c).files;
            && r.at <= |f.commits| && c.dec(r.raw) == Some(Store(f.commits[..r.at]))
            && r.answered <= |f.acks|
            && forall a | a in f.acks[..r.answered] && a.outcome == Done ::
                 0 < a.at <= r.at && f.commits[..r.at][a.at - 1] == a.op
  {
    hide Exec, Store;
    ExecKeeps(labels, c);
    var f := Exec(labels, c).files;
    forall a | a in f.acks[..r.answered] && a.outcome == Done ensures 0 < a.at <= r.at && f.commits[a.at - 1] == a.op {
      assert AckOk(f, a);
    }
  }

  // An answer tells the truth.  Success stands for one commit of this very operation, and no
  // two answers for the same one; a refusal, for an operation that would have changed nothing.
  lemma AnswersAreTrue(labels: seq<Label>, c: Codec)
    requires RoundTrips(c)
    ensures AcksOk(Exec(labels, c).files)
  {
    hide Exec, Store;
    ExecKeeps(labels, c);
  }

  lemma GrowsTransitive(f: Files, g: Files, h: Files, c: Codec)
    requires Grows(f, g) && Grows(g, h)
    requires Published(f, c)
    ensures Grows(f, h)
  {
    forall k | 0 <= k < |f.linked| && f.linked[k] < |f.disk| ensures h.disk[f.linked[k]] == f.disk[f.linked[k]] {
      assert g.linked[k] == f.linked[k];
    }
  }

  lemma ApplyGrows(s: Sys, l: Label, c: Codec)
    requires RoundTrips(c) && Inv(s, c)
    ensures Grows(s.files, Apply(s, l, c).files)
  {
    hide Act, ActorOk, FilesOk, RoundTrips;
    if l.Step? && l.who < |s.pcs| {
      ActOk(s.files, s.holder, l.who, s.pcs[l.who], l.action, c);
    }
  }

  // No committed update is lost, and a file that was once users.json never changes again: a
  // longer run has the same commits followed by others.
  lemma {:induction false} CommitsStand(labels: seq<Label>, more: seq<Label>, c: Codec)
    requires RoundTrips(c)
    ensures Grows(Exec(labels, c).files, Exec(labels + more, c).files)
  {
    hide Inv, Grows, Apply, Published, RoundTrips, Exec;
    if more == [] {
      assert labels + more == labels;
      GrowsItself(Exec(labels, c).files);
    } else {
      var some, l := more[..|more| - 1], more[|more| - 1];
      CommitsStand(labels, some, c);
      var s, t := Exec(labels, c), Exec(labels + some, c);
      ExecKeeps(labels, c);
      ExecKeeps(labels + some, c);
      ApplyGrows(t, l, c);
      InvGives(s, c);
      GrowsTransitive(s.files, t.files, Apply(t, l, c).files, c);
      ExecMore(labels + some, l, c);
      assert labels + more == labels + some + [l];
    }
  }

  lemma GrowsItself(f: Files)
    ensures Grows(f, f)
  {
  }

  lemma InvGives(s: Sys, c: Codec)
    requires Inv(s, c)
    ensures Published(s.files, c)
  {
    hide Published;
  }

  // ------------------------------------------------------------------ commits without an answer

  // Commit k was answered, or its author died, or is about to answer it.
  ghost predicate Settled(s: Sys, k: nat)
    requires k < |s.files.commits| == |s.files.authors|
  {
    var f, who := s.files, s.files.authors[k];
    && who < |s.pcs|
    && ((exists i :: 0 <= i < |f.acks| && f.acks[i] == Ack(who, f.commits[k], Done, k + 1))
        || s.pcs[who].Dead?
        || (k == |f.commits| - 1 && s.pcs[who] == Leaving(f.commits[k], Done)))
  }

  ghost predicate AllSettled(s: Sys) {
    && |s.files.commits| == |s.files.authors|
    && forall k :: 0 <= k < |s.files.commits| ==> Settled(s, k)
  }

  lemma QuietStep(f: Files, holder: Option<nat>, who: nat, pc: Pc, action: Action, c: Codec)
    requires !action.Rename?
    ensures var n := Act(f, holder, who, pc, action, c);
            && n.files.commits == f.commits && n.files.authors == f.authors && f.acks <= n.files.acks
            && (pc.Dead? ==> n.pc.Dead?)
            && (pc.Leaving? ==> n.pc == pc || n.pc.Dead?
                                || n.files.acks == f.acks + [Ack(who, pc.op, pc.outcome, |f.commits|)])
  {
    hide Decide, WriteAt, Chunk;
  }

  lemma QuietSettles(s: Sys, who: nat, action: Action, c: Codec, k: nat)
    requires !action.Rename? && who < |s.pcs|
    requires k < |s.files.commits| == |s.files.authors| && Settled(s, k)
    ensures var t := Apply(s, Step(who, action), c);
            k < |t.files.commits| == |t.files.authors| && Settled(t, k)
  {
    hide Act;
    QuietStep(s.files, s.holder, who, s.pcs[who], action, c);
    var f, t := s.files, Apply(s, Step(who, action), c);
    var ack := Ack(f.authors[k], f.commits[k], Done, k + 1);
    if i :| 0 <= i < |f.acks| && f.acks[i] == ack {
      assert t.files.acks[i] == ack;
    } else if f.authors[k] == who && s.pcs[who].Leaving? && t.files.acks == f.acks + [ack] {
      assert t.files.acks[|f.acks|] == ack;
    }
  }

  lemma RenameSettles(s: Sys, who: nat, c: Codec, k: nat)
    requires Inv(s, c) && AllSettled(s) && who < |s.pcs|
    ensures var t := Apply(s, Step(who, Rename), c);
            |t.files.commits| == |t.files.authors| && (k < |t.files.commits| ==> Settled(t, k))
  {
    hide FilesOk, HolderOk, ReaderOk;
    var f := s.files;
    if k < |f.commits| {
      assert Settled(s, k);
      var ack := Ack(f.authors[k], f.commits[k], Done, k + 1);
      if i :| 0 <= i < |f.acks| && f.acks[i] == ack {
        assert Apply(s, Step(who, Rename), c).files.acks[i] == ack;
      }
    }
  }

  lemma ApplySettles(s: Sys, l: Label, c: Codec)
    requires Inv(s, c) && AllSettled(s)
    ensures AllSettled(Apply(s, l, c))
  {
    hide Inv, Act, Settled;
    var t := Apply(s, l, c);
    if l == Spawn {
      SpawnSettles(s, c);
    } else if l.who < |s.pcs| {
      if l.action == Rename {
        RenameSettles(s, l.who, c, 0);
        forall k: nat | k < |t.files.commits| ensures Settled(t, k) {
          RenameSettles(s, l.who, c, k);
        }
      } else {
        QuietStep(s.files, s.holder, l.who, s.pcs[l.who], l.action, c);
        forall k: nat | k < |t.files.commits| ensures Settled(t, k) {
          QuietSettles(s, l.who, l.action, c, k);
        }
      }
    }
  }

  lemma SpawnSettles(s: Sys, c: Codec)
    requires AllSettled(s)
    ensures AllSettled(Apply(s, Spawn, c))
  {
    forall k: nat | k < |s.files.commits| ensures Settled(Apply(s, Spawn, c), k) {
      assert Settled(s, k);
    }
  }

  // A commit nobody was told of is that of a crashed writer, or the last one, whose author still
  // holds the lock.
  lemma {:induction false} EveryCommitIsAnswered(labels: seq<Label>, c: Codec)
    requires RoundTrips(c)
    ensures AllSettled(Exec(labels, c))
  {
    if labels != [] {
      hide Inv, Apply, RoundTrips, AllSettled;
      ExecKeeps(labels[..|labels| - 1], c);
      EveryCommitIsAnswered(labels[..|labels| - 1], c);
      ApplySettles(Exec(labels[..|labels| - 1], c), labels[|labels| - 1], c);
    }
  }

  // ------------------------------------------------------------------ failures are not made up

  // The points at which a writer makes a system call that may fail.
  predicate CanFail(pc: Pc) {
    pc.Waiting? || pc.Holding? || pc.Loading? || pc.Saving? || pc.Writing? || pc.Renaming? || pc.Removing?
  }

  // Since its call, a system call of this writer has failed.
  function FailedSince(labels: seq<Label>, who: nat, c: Codec): bool {
    if labels == [] then false
    else
      var before, l := labels[..|labels| - 1], labels[|labels| - 1];
      var s := Exec(before, c);
      if l.Step? && l.who == who && who < |s.pcs| && l.action == Fail && CanFail(s.pcs[who]) then true
      else if l.Step? && l.who == who && who < |s.pcs| && l.action.Call? && s.pcs[who].Idle? then false
      else FailedSince(before, who, c)
  }

  predicate Troubled(pc: Pc) {
    pc.Removing? || (pc.Leaving? && pc.outcome == IoError)
  }

  predicate Fails(pc: Pc, action: Action) {
    action == Fail && CanFail(pc)
  }

  lemma TroubleStep(f: Files, holder: Option<nat>, who: nat, pc: Pc, action: Action, c: Codec)
    requires RoundTrips(c) && FilesOk(f, c) && ActorOk(f, holder, who, pc, c)
    ensures Troubled(Act(f, holder, who, pc, action, c).pc) ==> Troubled(pc) || Fails(pc, action)
  {
    if action == Eof && pc.Loading? && |pc.got| >= |f.disk[pc.ino]| {
      assert pc.got == f.disk[f.main];
      LoadedIsStore(f, c);
      DecisionIsNoTrouble(f, pc.op, c);
    }
    hide RoundTrips, WriteAt, Chunk, Edit, Store, FilesOk, Decide;
  }

  // A step answers nothing, or one thing.
  lemma TroubleAnswers(f: Files, holder: Option<nat>, who: nat, pc: Pc, action: Action, c: Codec, a: Ack)
    requires Act(f, holder, who, pc, action, c).files.acks == f.acks + [a]
    ensures a.who == who && (a.outcome == IoError ==> Troubled(pc) || Fails(pc, action))
  {
    hide WriteAt, Chunk, Decide;
    assert (f.acks + [a])[|f.acks|] == a;
  }

  lemma DecisionIsNoTrouble(f: Files, op: Op, c: Codec)
    ensures !Troubled(Decide(op, Some(Store(f.commits)), c))
  {
    EditRefusal(Store(f.commits), op);
  }

  lemma {:induction false} TroubleMeansFailure(labels: seq<Label>, who: nat, c: Codec)
    requires RoundTrips(c) && who < |Exec(labels, c).pcs| && Troubled(Exec(labels, c).pcs[who])
    ensures FailedSince(labels, who, c)
  {
    var before, l := labels[..|labels| - 1], labels[|labels| - 1];
    var s := Exec(before, c);
    ExecKeeps(before, c);
    hide Act, ActorOk, FilesOk, RoundTrips;
    if l.Step? && l.who == who && who < |s.pcs| {
      TroubleStep(s.files, s.holder, who, s.pcs[who], l.action, c);
      CallIsNoTrouble(s.files, s.holder, who, s.pcs[who], l.action, c);
    }
    if who < |s.pcs| && Troubled(s.pcs[who]) {
      TroubleMeansFailure(before, who, c);
    }
  }

  lemma CallIsNoTrouble(f: Files, holder: Option<nat>, who: nat, pc: Pc, action: Action, c: Codec)
    ensures action.Call? && pc.Idle? ==> !Troubled(Act(f, holder, who, pc, action, c).pc) && !Troubled(pc)
  {
  }

  // An operation is answered with IoError only if a system call of its writer has failed since
  // the operation was called.
  lemma IoErrorMeansFailure(labels: seq<Label>, l: Label, c: Codec, a: Ack)
    requires RoundTrips(c) && Exec(labels + [l], c).files.acks == Exec(labels, c).files.acks + [a]
    requires a.outcome == IoError
    ensures FailedSince(labels + [l], a.who, c)
  {
    var s := Exec(labels, c);
    assert (labels + [l])[..|labels|] == labels;
    assert |s.files.acks + [a]| > |s.files.acks|;
    hide Act, RoundTrips;
    if l.Step? && l.who < |s.pcs| {
      TroubleAnswers(s.files, s.holder, l.who, s.pcs[l.who], l.action, c, a);
      CallAnswersNothing(s.files, s.holder, l.who, s.pcs[l.who], l.action, c);
      if Troubled(s.pcs[l.who]) {
        TroubleMeansFailure(labels, l.who, c);
      }
    }
  }

  lemma CallAnswersNothing(f: Files, holder: Option<nat>, who: nat, pc: Pc, action: Action, c: Codec)
    ensures action.Call? ==> Act(f, holder, who, pc, action, c).files.acks == f.acks
  {
  }

  // ------------------------------------------------------------------ undisturbed operations are carried out

  predicate Undisturbed(more: seq<Label>, who: nat) {
    forall k | 0 <= k < |more| ::
      more[k].Step? && more[k].who == who && more[k].action != Fail && more[k].action != Crash
  }

  // The labels lead from one state to another, by undisturbed steps of one actor.
  ghost predicate Leads(s: Sys, more: seq<Label>, t: Sys, who: nat, c: Codec)
    decreases |more|
  {
    if more == [] then s == t
    else
      && more[0].Step? && more[0].who == who && more[0].action != Fail && more[0].action != Crash
      && Leads(Apply(s, more[0], c), more[1..], t, who, c)
  }

  lemma ExecMore(labels: seq<Label>, l: Label, c: Codec)
    ensures Exec(labels + [l], c) == Apply(Exec(labels, c), l, c)
  {
    assert (labels + [l])[..|labels|] == labels;
  }

  lemma {:induction false} LeadsExec(labels: seq<Label>, more: seq<Label>, t: Sys, who: nat, c: Codec)
    requires Leads(Exec(labels, c), more, t, who, c)
    ensures Exec(labels + more, c) == t && Undisturbed(more, who)
    decreases |more|
  {
    hide Apply, Exec;
    if more == [] {
      assert labels + more == labels;
    } else {
      ExecMore(labels, more[0], c);
      LeadsExec(labels + [more[0]], more[1..], t, who, c);
      assert labels + [more[0]] + more[1..] == labels + more;
      assert more == [more[0]] + more[1..];
    }
  }

  lemma Onward(s: Sys, action: Action, t: Sys, more: seq<Label>, u: Sys, who: nat, c: Codec) returns (all: seq<Label>)
    requires Apply(s, Step(who, action), c) == t && action != Fail && action != Crash && Leads(t, more, u, who, c)
    ensures Leads(s, all, u, who, c)
  {
    all := [Step(who, action)] + more;
    assert all[1..] == more;
  }

  // The state with the lock held by `who`, which is at `pc`.
  function At(s: Sys, f: Files, who: nat, pc: Pc): Sys
    requires who < |s.pcs|
  {
    Sys(f, Some(who), s.pcs[who := pc])
  }

  // Where a writer ends: the answer given, and the lock free.
  function Answered(s: Sys, f: Files, who: nat, op: Op, outcome: Outcome): Sys
    requires who < |s.pcs|
  {
    Sys(Acked(f, who, op, outcome), None, s.pcs[who := Idle])
  }

  lemma LeaveLeads(s: Sys, f: Files, who: nat, op: Op, outcome: Outcome, c: Codec) returns (more: seq<Label>)
    requires who < |s.pcs|
    ensures Leads(At(s, f, who, Leaving(op, outcome)), more, Answered(s, f, who, op, outcome), who, c)
  {
    var t, u := At(s, f, who, Leaving(op, outcome)), Answered(s, f, who, op, outcome);
    assert s.pcs[who := Leaving(op, outcome)][who := Idle] == s.pcs[who := Idle];
    more := [];
    more := Onward(t, Return, u, more, u, who, c);
  }

  // After the rename of an inode that holds the data.
  function Renamed(f: Files, who: nat, op: Op, ino: nat): Files {
    f.(main := ino, tmp := None, commits := f.commits + [op], authors := f.authors + [who],
       linked := f.linked + [ino])
  }

  lemma RenameLeads(s: Sys, f: Files, who: nat, op: Op, ino: nat, c: Codec) returns (more: seq<Label>)
    requires who < |s.pcs| && f.tmp == Some(ino)
    ensures Leads(At(s, f, who, Renaming(op)), more, Answered(s, Renamed(f, who, op, ino), who, op, Done), who, c)
  {
    var g := Renamed(f, who, op, ino);
    more := LeaveLeads(s, g, who, op, Done, c);
    hide Leads;
    assert s.pcs[who := Renaming(op)][who := Leaving(op, Done)] == s.pcs[who := Leaving(op, Done)];
    more := Onward(At(s, f, who, Renaming(op)), Rename, At(s, g, who, Leaving(op, Done)), more,
                   Answered(s, g, who, op, Done), who, c);
  }

  lemma ChunkAll(data: string)
    ensures Chunk(data, 0, |data|) == data
  {
  }

  lemma CloseLeads(s: Sys, f: Files, who: nat, op: Op, data: string, ino: nat, c: Codec) returns (more: seq<Label>)
    requires who < |s.pcs| && f.tmp == Some(ino)
    ensures Leads(At(s, f, who, Writing(op, data, ino, |data|)), more,
                  Answered(s, Renamed(f, who, op, ino), who, op, Done), who, c)
  {
    more := RenameLeads(s, f, who, op, ino, c);
    hide Leads;
    var q, r := Writing(op, data, ino, |data|), Renaming(op);
    assert s.pcs[who := q][who := r] == s.pcs[who := r];
    more := Onward(At(s, f, who, q), CloseTmp, At(s, f, who, r), more,
                   Answered(s, Renamed(f, who, op, ino), who, op, Done), who, c);
  }

  lemma WriteLeads(s: Sys, f: Files, who: nat, op: Op, data: string, ino: nat, c: Codec)
    returns (more: seq<Label>, g: Files)
    requires who < |s.pcs| && f.tmp == Some(ino) && ino < |f.disk| && f.disk[ino] == ""
    ensures Leads(At(s, f, who, Writing(op, data, ino, 0)), more, Answered(s, g, who, op, Done), who, c)
    ensures g.commits == f.commits + [op] && g.acks == f.acks && g.reports == f.reports
  {
    var f1 := f.(disk := f.disk[ino := data]);
    g := Renamed(f1, who, op, ino);
    more := CloseLeads(s, f1, who, op, data, ino, c);
    hide Leads, Chunk, WriteAt;
    var p, q := Writing(op, data, ino, 0), Writing(op, data, ino, |data|);
    assert s.pcs[who := p][who := q] == s.pcs[who := q];
    ChunkAll(data);
    WriteAtEnd(data, 0, |data|);
    assert data[..0] == "" && data[..|data|] == data;
    var u := Answered(s, g, who, op, Done);
    more := Onward(At(s, f, who, p), WriteChunk(|data|), At(s, f1, who, q), more, u, who, c);
  }

  lemma SaveLeads(s: Sys, f: Files, who: nat, op: Op, data: string, c: Codec) returns (more: seq<Label>, g: Files)
    requires who < |s.pcs| && (f.tmp.Some? ==> f.tmp.value < |f.disk|)
    ensures Leads(At(s, f, who, Saving(op, data)), more, Answered(s, g, who, op, Done), who, c)
    ensures g.commits == f.commits + [op] && g.acks == f.acks && g.reports == f.reports
  {
    var ino := if f.tmp.Some? then f.tmp.value else |f.disk|;
    var f1 := if f.tmp.Some? then f.(disk := f.disk[ino := ""]) else f.(disk := f.disk + [""], tmp := Some(ino));
    more, g := WriteLeads(s, f1, who, op, data, ino, c);
    hide Leads;
    var p, q := Saving(op, data), Writing(op, data, ino, 0);
    assert s.pcs[who := p][who := q] == s.pcs[who := q];
    more := Onward(At(s, f, who, p), OpenTmp, At(s, f1, who, q), more, Answered(s, g, who, op, Done), who, c);
  }

  lemma DecideLeads(s: Sys, f: Files, who: nat, op: Op, c: Codec) returns (more: seq<Label>, g: Files)
    requires RoundTrips(c) && FilesOk(f, c) && who < |s.pcs|
    ensures var outcome := Edited(f, op).1;
            && Leads(At(s, f, who, Decide(op, Some(Store(f.commits)), c)), more,
                     Answered(s, g, who, op, outcome), who, c)
            && g.commits == f.commits + (if outcome == Done then [op] else [])
            && g.acks == f.acks && g.reports == f.reports
  {
    hide Leads, RoundTrips, Store, Edit;
    var (after, outcome) := Edit(Store(f.commits), op);
    if outcome == Done {
      more, g := SaveLeads(s, f, who, op, c.enc(after), c);
    } else {
      g := f;
      more := LeaveLeads(s, f, who, op, outcome, c);
      assert f.commits + [] == f.commits;
    }
  }

  lemma LoadedLeads(s: Sys, f: Files, who: nat, op: Op, rest: seq<Label>, u: Sys, c: Codec) returns (more: seq<Label>)
    requires who < |s.pcs| && f.main < |f.disk|
    requires Leads(At(s, f, who, Decide(op, c.dec(f.disk[f.main]), c)), rest, u, who, c)
    ensures Leads(At(s, f, who, Loading(op, f.main, f.disk[f.main])), more, u, who, c)
  {
    hide Leads, Decide;
    var raw := f.disk[f.main];
    var r, z := Loading(op, f.main, raw), Decide(op, c.dec(raw), c);
    assert s.pcs[who := r][who := z] == s.pcs[who := z];
    more := Onward(At(s, f, who, r), Eof, At(s, f, who, z), rest, u, who, c);
  }

  lemma LoadLeads(s: Sys, f: Files, who: nat, op: Op, c: Codec) returns (more: seq<Label>, g: Files)
    requires RoundTrips(c) && FilesOk(f, c) && who < |s.pcs|
    ensures var outcome := Edited(f, op).1;
            && Leads(At(s, f, who, Holding(op)), more, Answered(s, g, who, op, outcome), who, c)
            && g.commits == f.commits + (if outcome == Done then [op] else [])
            && g.acks == f.acks && g.reports == f.reports
  {
    hide Leads, RoundTrips, Store, Edit, Decide, FilesOk;
    InStep(f, c);
    LoadedIsStore(f, c);
    more, g := DecideLeads(s, f, who, op, c);
    var u := Answered(s, g, who, op, Edited(f, op).1);
    more := LoadedLeads(s, f, who, op, more, u, c);
    more := ReadLeads(s, f, who, op, more, u, c);
  }

  lemma ReadLeads(s: Sys, f: Files, who: nat, op: Op, rest: seq<Label>, u: Sys, c: Codec) returns (more: seq<Label>)
    requires who < |s.pcs| && f.main < |f.disk|
    requires Leads(At(s, f, who, Loading(op, f.main, f.disk[f.main])), rest, u, who, c)
    ensures Leads(At(s, f, who, Holding(op)), more, u, who, c)
  {
    hide Leads;
    var raw := f.disk[f.main];
    var p, q, r := Holding(op), Loading(op, f.main, ""), Loading(op, f.main, raw);
    assert s.pcs[who := q][who := r] == s.pcs[who := r] && s.pcs[who := p][who := q] == s.pcs[who := q];
    ChunkAll(raw);
    assert "" + raw == raw;
    more := Onward(At(s, f, who, q), ReadChunk(|raw|), At(s, f, who, r), rest, u, who, c);
    more := Onward(At(s, f, who, p), Open, At(s, f, who, q), more, u, who, c);
  }

  // From every state with the lock free and a writer waiting for it, that writer alone, undisturbed,
  // gets the answer the operation has on the users committed so far, and commits it iff that is Done.
  lemma WaitingWriterFinishes(labels: seq<Label>, who: nat, c: Codec) returns (more: seq<Label>)
    requires RoundTrips(c)
    requires var s := Exec(labels, c); s.holder.None? && who < |s.pcs| && s.pcs[who].Waiting?
    ensures var s, t := Exec(labels, c), Exec(labels + more, c);
            var op := s.pcs[who].op;
            var outcome := Edit(Store(s.files.commits), op).1;
            && Undisturbed(more, who) && t.holder.None? && t.pcs == s.pcs[who := Idle]
            && t.files.commits == s.files.commits + (if outcome == Done then [op] else [])
            && t.files.acks == s.files.acks + [Ack(who, op, outcome, |t.files.commits|)]
            && t.files.reports == s.files.reports
  {
    var s := Exec(labels, c);
    var op := s.pcs[who].op;
    ExecKeeps(labels, c);
    var g;
    more, g := LoadLeads(s, s.files, who, op, c);
    hide Leads, RoundTrips, Store, Edit, FilesOk, ActorOk;
    var u := Answered(s, g, who, op, Edited(s.files, op).1);
    more := Onward(s, Flock, At(s, s.files, who, Holding(op)), more, u, who, c);
    LeadsExec(labels, more, u, who, c);
  }

  lemma ReportLeads(s: Sys, who: nat, c: Codec) returns (more: seq<Label>, t: Sys)
    requires who < |s.pcs| && s.pcs[who].Idle? && s.files.main < |s.files.disk|
    ensures var f := s.files;
            var report := Report(f.disk[f.main], |f.commits|, |f.acks|);
            t == s.(files := f.(reports := f.reports + [report])) && Leads(s, more, t, who, c)
  {
    var f := s.files;
    var raw := f.disk[f.main];
    var q, r := Reading(f.main, "", |f.commits|, |f.acks|), Reading(f.main, raw, |f.commits|, |f.acks|);
    var s1, s2 := s.(pcs := s.pcs[who := q]), s.(pcs := s.pcs[who := r]);
    t := s.(files := f.(reports := f.reports + [Report(raw, |f.commits|, |f.acks|)]));
    assert s.pcs[who := q][who := r] == s.pcs[who := r] && s.pcs[who := r][who := Idle] == s.pcs;
    more := Onward(s2, Eof, t, [], t, who, c);
    hide Leads;
    ChunkAll(raw);
    assert "" + raw == raw;
    more := Onward(s1, ReadChunk(|raw|), s2, more, t, who, c);
    more := Onward(s, Open, s1, more, t, who, c);
  }

  // And a reader alone gets the users committed when it opened the file.
  lemma ReaderFinishes(labels: seq<Label>, who: nat, c: Codec) returns (more: seq<Label>)
    requires RoundTrips(c) && who < |Exec(labels, c).pcs| && Exec(labels, c).pcs[who].Idle?
    ensures var s, t := Exec(labels, c), Exec(labels + more, c);
            && Undisturbed(more, who) && t.pcs == s.pcs && t.holder == s.holder
            && |t.files.reports| == |s.files.reports| + 1
            && c.dec(t.files.reports[|s.files.reports|].raw) == Some(Store(s.files.commits))
  {
    var s := Exec(labels, c);
    var f := s.files;
    ExecKeeps(labels, c);
    InStep(f, c);
    LoadedIsStore(f, c);
    hide RoundTrips, Store, FilesOk, ActorOk, Leads;
    var u;
    more, u := ReportLeads(s, who, c);
    LeadsExec(labels, more, u, who, c);
  }
}
