/**
 What reaches the modem (sendLine and sendBatch, internal/tui/connected.go:467-498).  Each command
 a session issues runs on its own: any number are pending at once, their writes interleave in any
 way, and any of them may fail and give up.  A write is one line and its carriage return.
 */
module Wire {
  import opened Seqs
  import opened Text
  import opened Console
  import opened ConsoleRuns

  datatype Sender = Sender(lines: seq<string>, next: nat, failed: bool)

  datatype Act = Handle(msg: Msg) | Write(who: nat) | Fail(who: nat)

  // One write: who made it and of which line.  The log is a record of the past, not state.
  datatype Entry = Entry(who: nat, line: string)

  datatype World = World(view: View, senders: seq<Sender>, wire: string, log: seq<Entry>)

  function Spawn(cmds: seq<Cmd>): seq<Sender> {
    seq(|cmds|, k requires 0 <= k < |cmds| => Sender(LinesOf(cmds[k]), 0, false))
  }

  predicate Ready(w: World, who: nat) {
    who < |w.senders| && !w.senders[who].failed && w.senders[who].next < |w.senders[who].lines|
  }

  function Apply(w: World, act: Act): World {
    match act
    case Handle(msg) =>
      var (v, cmds) := After(w.view, msg);
      w.(view := v, senders := w.senders + Spawn(cmds))
    case Write(who) =>
      if !Ready(w, who) then w
      else
        var s := w.senders[who];
        w.(senders := w.senders[who := s.(next := s.next + 1)],
           wire := w.wire + s.lines[s.next] + ['\r'],
           log := w.log + [Entry(who, s.lines[s.next])])
    case Fail(who) =>
      if !Ready(w, who) then w
      else w.(senders := w.senders[who := w.senders[who].(failed := true)])
  }

  // What a session issues when it starts (Init).
  function Opening(): seq<Cmd> {
    [AwaitData, SendWake, ScheduleWake]
  }

  // All commands of a session, in the order of their issue.
  function AllIssued(site: string, msgs: seq<Msg>): seq<Cmd> {
    Opening() + Issued(site, msgs)
  }

  function Play(site: string, acts: seq<Act>): World {
    if acts == [] then World(Fresh(site), Spawn(Opening()), "", [])
    else Apply(Play(site, acts[..|acts| - 1]), acts[|acts| - 1])
  }

  function MsgOf(act: Act): seq<Msg> {
    if act.Handle? then [act.msg] else []
  }

  function LineOf(e: Entry): seq<string> {
    [e.line]
  }

  // The lines one sender wrote.
  function By(log: seq<Entry>, who: nat): seq<string> {
    if log == [] then []
    else
      By(log[..|log| - 1], who) + if log[|log| - 1].who == who then [log[|log| - 1].line] else []
  }

  ghost function Sent(s: Sender): multiset<string> {
    if s.next <= |s.lines| then multiset(s.lines[..s.next]) else multiset{}
  }

  // What all senders together have written.
  ghost function Done(senders: seq<Sender>): multiset<string> {
    if senders == [] then multiset{}
    else Done(senders[..|senders| - 1]) + Sent(senders[|senders| - 1])
  }

  ghost predicate InRange(senders: seq<Sender>) {
    forall i :: 0 <= i < |senders| ==> senders[i].next <= |senders[i].lines|
  }

  ghost predicate Backed(senders: seq<Sender>, cmds: seq<Cmd>) {
    |senders| == |cmds| && forall i :: 0 <= i < |cmds| ==> senders[i].lines == LinesOf(cmds[i])
  }

  ghost predicate InOrder(senders: seq<Sender>, log: seq<Entry>)
    requires InRange(senders)
  {
    && (forall k :: 0 <= k < |log| ==> log[k].who < |senders|)
    && (forall i :: 0 <= i < |senders| ==> By(log, i) == senders[i].lines[..senders[i].next])
  }

  ghost predicate Counted(w: World) {
    && w.wire == Terminated(FlatMap(LineOf, w.log), '\r')
    && multiset(FlatMap(LineOf, w.log)) == Done(w.senders)
  }

  ghost predicate Inv(w: World, cmds: seq<Cmd>) {
    && Backed(w.senders, cmds) && InRange(w.senders)
    && InOrder(w.senders, w.log)
    && Counted(w)
  }

  lemma DoneSnoc(senders: seq<Sender>, s: Sender)
    ensures Done(senders + [s]) == Done(senders) + Sent(s)
  {
    assert (senders + [s])[..|senders|] == senders;
  }

  lemma NothingSent(s: Sender)
    requires s.next == 0
    ensures Sent(s) == multiset{}
  {
    assert s.lines[..0] == [];
  }

  lemma {:induction false} DoneGrows(senders: seq<Sender>, more: seq<Sender>)
    requires forall k :: 0 <= k < |more| ==> more[k].next == 0
    ensures Done(senders + more) == Done(senders)
  {
    hide Done, Sent;
    if more == [] {
      assert senders + more == senders;
    } else {
      var some, last := more[..|more| - 1], more[|more| - 1];
      DoneGrows(senders, some);
      DoneSnoc(senders + some, last);
      NothingSent(last);
      assert senders + more == senders + some + [last];
    }
  }

  lemma SentNext(s: Sender)
    requires s.next < |s.lines|
    ensures Sent(s.(next := s.next + 1)) == Sent(s) + multiset{s.lines[s.next]}
  {
    assert s.lines[..s.next + 1] == s.lines[..s.next] + [s.lines[s.next]];
  }

  lemma {:induction false} DoneUpdate(senders: seq<Sender>, who: nat, s: Sender, more: multiset<string>)
    requires who < |senders| && Sent(s) == Sent(senders[who]) + more
    ensures Done(senders[who := s]) == Done(senders) + more
  {
    hide Sent;
    var n, after := |senders|, senders[who := s];
    if who == n - 1 {
      assert after[..n - 1] == senders[..n - 1];
    } else {
      assert after[..n - 1] == senders[..n - 1][who := s];
      DoneUpdate(senders[..n - 1], who, s, more);
    }
  }

  lemma {:induction false} ByNobody(log: seq<Entry>, who: nat)
    requires forall k :: 0 <= k < |log| ==> log[k].who < who
    ensures By(log, who) == []
  {
    if log != [] {
      ByNobody(log[..|log| - 1], who);
    }
  }

  lemma HandleKeeps(w: World, cmds: seq<Cmd>, msg: Msg)
    requires Inv(w, cmds)
    ensures Inv(Apply(w, Handle(msg)), cmds + After(w.view, msg).1)
  {
    hide After, Done, Terminated, FlatMap, By;
    var more := After(w.view, msg).1;
    DoneGrows(w.senders, Spawn(more));
    var all := w.senders + Spawn(more);
    forall i | |w.senders| <= i < |all| ensures By(w.log, i) == all[i].lines[..all[i].next] {
      ByNobody(w.log, i);
    }
  }

  lemma LogGrows(log: seq<Entry>, e: Entry)
    ensures FlatMap(LineOf, log + [e]) == FlatMap(LineOf, log) + [e.line]
    ensures forall i: nat :: By(log + [e], i) == By(log, i) + if e.who == i then [e.line] else []
    ensures var ls := FlatMap(LineOf, log); Terminated(ls + [e.line], '\r') == Terminated(ls, '\r') + e.line + ['\r']
  {
    assert (log + [e])[..|log|] == log;
    var ls := FlatMap(LineOf, log);
    assert (ls + [e.line])[..|ls|] == ls;
  }

  lemma WriteKeepsOrder(w: World, who: nat)
    requires InRange(w.senders) && InOrder(w.senders, w.log) && Ready(w, who)
    ensures var x := Apply(w, Write(who)); InRange(x.senders) && InOrder(x.senders, x.log)
  {
    hide By;
    var s, x := w.senders[who], Apply(w, Write(who));
    LogGrows(w.log, Entry(who, s.lines[s.next]));
    assert s.lines[..s.next + 1] == s.lines[..s.next] + [s.lines[s.next]];
  }

  lemma WriteKeepsCount(w: World, who: nat)
    requires Counted(w) && Ready(w, who)
    ensures Counted(Apply(w, Write(who)))
  {
    hide Done, Terminated, FlatMap, Sent;
    var s := w.senders[who];
    LogGrows(w.log, Entry(who, s.lines[s.next]));
    SentNext(s);
    DoneUpdate(w.senders, who, s.(next := s.next + 1), multiset{s.lines[s.next]});
  }

  lemma WriteKeeps(w: World, cmds: seq<Cmd>, who: nat)
    requires Inv(w, cmds)
    ensures Inv(Apply(w, Write(who)), cmds)
  {
    if Ready(w, who) {
      WriteKeepsOrder(w, who);
      WriteKeepsCount(w, who);
      WriteKeepsLines(w, cmds, who);
      hide Apply, Backed, Counted, InOrder, InRange;
    }
  }

  lemma WriteKeepsLines(w: World, cmds: seq<Cmd>, who: nat)
    requires Backed(w.senders, cmds) && Ready(w, who)
    ensures Backed(Apply(w, Write(who)).senders, cmds)
  {
    hide LinesOf;
  }

  lemma FailKeepsCount(w: World, who: nat)
    requires Counted(w)
    ensures Counted(Apply(w, Fail(who)))
  {
    if Ready(w, who) {
      hide Done, Terminated, FlatMap;
      DoneUpdate(w.senders, who, w.senders[who].(failed := true), multiset{});
    }
  }

  lemma FailKeepsOrder(w: World, who: nat)
    requires InRange(w.senders) && InOrder(w.senders, w.log)
    ensures var x := Apply(w, Fail(who)); InRange(x.senders) && InOrder(x.senders, x.log)
  {
    hide By;
  }

  lemma FailKeeps(w: World, cmds: seq<Cmd>, who: nat)
    requires Inv(w, cmds)
    ensures Inv(Apply(w, Fail(who)), cmds)
  {
    hide Counted, InOrder, InRange;
    FailKeepsCount(w, who);
    FailKeepsOrder(w, who);
  }

  lemma SpawnHolds(view: View, cmds: seq<Cmd>)
    ensures Inv(World(view, Spawn(cmds), "", []), cmds)
  {
    hide LinesOf, Done;
    DoneGrows([], Spawn(cmds));
    NothingDone();
    assert [] + Spawn(cmds) == Spawn(cmds);
  }

  lemma NothingDone()
    ensures Done([]) == multiset{}
  {
  }

  lemma StartHolds(site: string)
    ensures Inv(Play(site, []), AllIssued(site, []))
  {
    hide Inv, Fresh, Opening;
    SpawnHolds(Fresh(site), Opening());
    assert Opening() + [] == Opening();
  }

  ghost predicate Reached(w: World, site: string, msgs: seq<Msg>) {
    w.view == Run(site, msgs) && Inv(w, AllIssued(site, msgs))
  }

  lemma HandleReaches(w: World, site: string, msgs: seq<Msg>, msg: Msg)
    requires Reached(w, site, msgs)
    ensures Reached(Apply(w, Handle(msg)), site, msgs + [msg])
  {
    hide After, Inv, Fresh, Opening;
    HandleKeeps(w, AllIssued(site, msgs), msg);
    assert (msgs + [msg])[..|msgs|] == msgs;
    assert AllIssued(site, msgs + [msg]) == AllIssued(site, msgs) + After(w.view, msg).1;
  }

  lemma SenderReaches(w: World, site: string, msgs: seq<Msg>, act: Act)
    requires Reached(w, site, msgs) && !act.Handle?
    ensures Reached(Apply(w, act), site, msgs)
  {
    hide Inv, AllIssued, Run;
    if act.Write? {
      WriteKeeps(w, AllIssued(site, msgs), act.who);
    } else {
      FailKeeps(w, AllIssued(site, msgs), act.who);
    }
  }

  lemma {:induction false} PlayKeeps(site: string, acts: seq<Act>)
    ensures Reached(Play(site, acts), site, FlatMap(MsgOf, acts))
  {
    if acts == [] {
      StartHolds(site);
      return;
    }
    hide Apply, Reached, Fresh, Opening;
    var before, act := acts[..|acts| - 1], acts[|acts| - 1];
    PlayKeeps(site, before);
    var w, msgs := Play(site, before), FlatMap(MsgOf, before);
    if act.Handle? {
      HandleReaches(w, site, msgs, act.msg);
    } else {
      SenderReaches(w, site, msgs, act);
      assert msgs + [] == msgs;
    }
  }

  lemma AllPrintableCmds(site: string, msgs: seq<Msg>)
    ensures PrintableCmds(AllIssued(site, msgs))
  {
    hide Issued, Run;
    SessionsStaySound(site, msgs);
  }

  lemma NoOpeningBatch(site: string, msgs: seq<Msg>)
    ensures FlatMap(BatchOf, AllIssued(site, msgs)) == FlatMap(BatchOf, Issued(site, msgs))
  {
    hide Issued;
    FlatMapConcat(BatchOf, Opening(), Issued(site, msgs));
    assert Opening() == [AwaitData, SendWake] + [ScheduleWake];
    FlatMapConcat(BatchOf, [AwaitData, SendWake], [ScheduleWake]);
    FlatMapSmall(BatchOf, [AwaitData, SendWake]);
    FlatMapSmall(BatchOf, [ScheduleWake]);
  }

  // ------------------------------------------------------------------ framing

  lemma {:induction false} ByIsIn(log: seq<Entry>, k: int)
    requires 0 <= k < |log|
    ensures log[k].line in By(log, log[k].who)
  {
    if k < |log| - 1 {
      ByIsIn(log[..|log| - 1], k);
    }
  }

  lemma {:induction false} LoggedLines(log: seq<Entry>)
    ensures |FlatMap(LineOf, log)| == |log|
    ensures forall k :: 0 <= k < |log| ==> FlatMap(LineOf, log)[k] == log[k].line
  {
    if log != [] {
      LoggedLines(log[..|log| - 1]);
    }
  }

  lemma LogIsFree(w: World, cmds: seq<Cmd>)
    requires Inv(w, cmds) && PrintableCmds(cmds)
    ensures AllFree(FlatMap(LineOf, w.log), '\r')
  {
    hide Done, Terminated, FlatMap, By, LinesOf;
    LoggedLines(w.log);
    forall k | 0 <= k < |w.log| ensures Free(w.log[k].line, '\r') {
      ByIsIn(w.log, k);
      assert w.log[k].line in LinesOf(cmds[w.log[k].who]);
    }
  }

  // However the writes interleave, the bytes on the wire split at carriage returns into the
  // lines written, and each command's lines are a prefix of what it was issued with, in order.
  lemma BytesFrameLines(site: string, acts: seq<Act>)
    ensures var w, cmds := Play(site, acts), AllIssued(site, FlatMap(MsgOf, acts));
            && |w.senders| == |cmds|
            && Split(w.wire, '\r') == FlatMap(LineOf, w.log) + [""]
            && (forall i :: 0 <= i < |cmds| ==> By(w.log, i) <= LinesOf(cmds[i]))
            && (forall k :: 0 <= k < |w.log| ==> w.log[k].who < |cmds|)
  {
    hide Done, Terminated, FlatMap, By, LinesOf, Play, AllIssued, Issued, Run;
    var w, msgs := Play(site, acts), FlatMap(MsgOf, acts);
    PlayKeeps(site, acts);
    AllPrintableCmds(site, msgs);
    LogIsFree(w, AllIssued(site, msgs));
    SplitTerminated(FlatMap(LineOf, w.log), '\r');
  }

  // ------------------------------------------------------------------ nothing lost, nothing added

  ghost predicate Finished(w: World) {
    forall i :: 0 <= i < |w.senders| ==> w.senders[i].next == |w.senders[i].lines|
  }

  lemma {:induction false} DoneWhenFinished(senders: seq<Sender>, cmds: seq<Cmd>)
    requires Backed(senders, cmds)
    requires forall i :: 0 <= i < |senders| ==> senders[i].next == |senders[i].lines|
    ensures Done(senders) == multiset(FlatMap(LinesOf, cmds))
  {
    if senders != [] {
      var s := senders[|senders| - 1];
      DoneWhenFinished(senders[..|senders| - 1], cmds[..|cmds| - 1]);
      assert s.lines[..s.next] == s.lines;
    }
  }

  // A line typed in normal mode, or the empty line of a wake-up.
  function SingleOf(cmd: Cmd): seq<string> {
    match cmd
    case SendLine(line) => [line]
    case SendWake => [""]
    case _ => []
  }

  function Same(ls: seq<string>): seq<string> {
    ls
  }

  lemma {:induction false} LinesBySource(cmds: seq<Cmd>)
    ensures multiset(FlatMap(LinesOf, cmds))
         == multiset(FlatMap(SingleOf, cmds)) + multiset(FlatMap(Same, FlatMap(BatchOf, cmds)))
  {
    if cmds != [] {
      hide LinesOf, SingleOf, BatchOf, Same;
      var before, cmd := cmds[..|cmds| - 1], cmds[|cmds| - 1];
      LinesBySource(before);
      FlatMapConcat(Same, FlatMap(BatchOf, before), BatchOf(cmd));
      LinesOfOne(cmd);
      hide FlatMap;
    }
  }

  // A command is a line by itself, or a batch, or sends nothing.
  lemma LinesOfOne(cmd: Cmd)
    ensures multiset(LinesOf(cmd)) == multiset(SingleOf(cmd)) + multiset(FlatMap(Same, BatchOf(cmd)))
  {
    FlatMapSmall(Same, BatchOf(cmd));
    hide FlatMap;
  }

  // Once every command has run to its end, what was sent is exactly: the lines submitted in
  // normal mode, the wake-ups, and the lines of the batches sent.  Lines of cancelled batches
  // are in none of these.
  lemma EverySubmittedLineIsSent(site: string, acts: seq<Act>)
    requires Finished(Play(site, acts))
    ensures var w, msgs := Play(site, acts), FlatMap(MsgOf, acts);
            multiset(Split(w.wire, '\r')) == multiset{""}
              + multiset(FlatMap(SingleOf, AllIssued(site, msgs)))
              + multiset(FlatMap(Same, FlatMap(SentBy, Events(site, msgs))))
  {
    hide Done, Terminated, FlatMap, By, LinesOf, Play, AllIssued, Issued, Run, SingleOf, Events;
    var w, msgs := Play(site, acts), FlatMap(MsgOf, acts);
    var cmds := AllIssued(site, msgs);
    BytesFrameLines(site, acts);
    PlayKeeps(site, acts);
    DoneWhenFinished(w.senders, cmds);
    LinesBySource(cmds);
    BatchesAccountForEveryLine(site, msgs);
    NoOpeningBatch(site, msgs);
    assert multiset(FlatMap(LineOf, w.log) + [""]) == multiset(FlatMap(LineOf, w.log)) + multiset{""};
  }
}
