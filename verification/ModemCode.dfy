/** The open modem as code: its transcript, Configure and Dial (internal/modem/modem.go). */
module ModemCode {
  import opened DialProtocol
  import opened Transcript
  import opened Modem
  import Text

  // What the device does about one command: whether the write fails, what can be read after it
  // and until when.
  datatype Exchange = Exchange(writeFails: bool, script: seq<Tick>, deadline: int)

  ghost predicate Timed(x: Exchange) {
    exists k :: 0 <= k < |x.script| && !Live(x.script[k], x.deadline)
  }

  datatype Reply = NotSent | Reply(resp: string, how: Hearing)

  // The answer to a command sent to the device.
  ghost predicate Replies(x: Exchange, codes: seq<string>, reply: Reply) {
    if x.writeFails then reply == NotSent
    else reply.Reply? && exists used: nat :: Hears(x.script, x.deadline, codes, reply.resp, reply.how, used)
  }

  // What the exchange adds to the transcript.
  function Said(cmd: string, reply: Reply): seq<Entry> {
    if reply.NotSent? then [Sent(cmd)] else [Sent(cmd), Heard(reply.resp)]
  }

  function SaidAll(cmds: seq<string>, replies: seq<Reply>): seq<Entry>
    requires |replies| <= |cmds|
  {
    if replies == [] then []
    else
      var n := |replies| - 1;
      SaidAll(cmds, replies[..n]) + Said(cmds[n], replies[n])
  }

  lemma SaidNothing(cmds: seq<string>)
    ensures SaidAll(cmds, []) == []
  {
  }

  lemma SaidMore(cmds: seq<string>, replies: seq<Reply>, reply: Reply, earlier: seq<Entry>)
    requires |replies| < |cmds|
    ensures earlier + SaidAll(cmds, replies) + Said(cmds[|replies|], reply)
         == earlier + SaidAll(cmds, replies + [reply])
  {
    assert (replies + [reply])[..|replies|] == replies;
  }

  lemma {:induction false} SaidLength(cmds: seq<string>, replies: seq<Reply>)
    requires |replies| <= |cmds| && forall j :: 0 <= j < |replies| ==> replies[j].Reply?
    ensures |SaidAll(cmds, replies)| == 2 * |replies|
  {
    if replies != [] {
      SaidLength(cmds, replies[..|replies| - 1]);
    }
  }

  // The transcript of some commands, all sent but the last perhaps: each command, right after it
  // its reply if it could be sent, and nothing else.
  lemma {:induction false} TranscriptOfCommands(cmds: seq<string>, replies: seq<Reply>, k: nat)
    requires k < |replies| <= |cmds| && forall j :: 0 <= j < |replies| - 1 ==> replies[j].Reply?
    ensures var said, n := SaidAll(cmds, replies), |replies| - 1;
            && |said| == 2 * n + (if replies[n].Reply? then 2 else 1)
            && said[2 * k] == Sent(cmds[k])
            && (replies[k].Reply? ==> said[2 * k + 1] == Heard(replies[k].resp))
  {
    var n := |replies| - 1;
    SaidLength(cmds, replies[..n]);
    if k < n {
      TranscriptOfCommands(cmds, replies[..n], k);
      hide SaidAll, Said;
      SaidMore(cmds, replies[..n], replies[n], []);
      assert replies == replies[..n] + [replies[n]];
      assert [] + SaidAll(cmds, replies) == SaidAll(cmds, replies);
      assert [] + SaidAll(cmds, replies[..n]) == SaidAll(cmds, replies[..n]);
      SaidSize(cmds[n], replies[n]);
    }
  }

  lemma SaidSize(cmd: string, reply: Reply)
    ensures |Said(cmd, reply)| == if reply.Reply? then 2 else 1
  {
  }

  const OK_OR_ERROR: seq<string> := ["OK", "ERROR"]

  // Configure takes a command as accepted when OK or ERROR was heard, in any case, and what was
  // heard does not contain ERROR in capitals.
  predicate Accepted(reply: Reply) {
    reply.Reply? && reply.how == Matched && !Contains(reply.resp, "ERROR")
  }

  // What Configure has made of the replies to its commands: it stops at the first that it does
  // not accept.
  ghost predicate Counted(replies: seq<Reply>, commands: nat, done: nat) {
    && done <= |replies| <= commands
    && (forall k :: 0 <= k < done ==> Accepted(replies[k]))
    && (done == commands || (|replies| == done + 1 && !Accepted(replies[done])))
  }

  class OpenModem {
    const isPrint: char -> bool
    var log: string
    ghost var entries: seq<Entry>

    ghost predicate Valid()
      reads this
    {
      log == Written(entries, isPrint)
    }

    constructor (isPrint: char -> bool)
      ensures Valid() && entries == [] && this.isPrint == isPrint
    {
      this.isPrint := isPrint;
      log := "";
      entries := [];
    }

    method LogCmd(cmd: string)
      requires Valid()
      modifies this
      ensures Valid() && entries == old(entries) + [Sent(cmd)]
    {
      hide Clean;
      var line := ">>> " + cmd + "\n";
      ghost var before := entries;
      TerminatedOne(CommandLine(cmd));
      assert line == CommandLine(cmd) + ['\n'];
      log := log + line;
      entries := entries + [Sent(cmd)];
      assert entries[..|entries| - 1] == before;
    }

    method LogResp(resp: string)
      requires Valid()
      modifies this
      ensures Valid() && entries == old(entries) + [Heard(resp)]
    {
      hide Clean;
      var cleaned := Clean(resp, isPrint);
      ghost var before := entries;
      if cleaned != "" {
        var line := "<<< " + cleaned + "\n";
        TerminatedOne(ResponseLine(cleaned));
        assert line == ResponseLine(cleaned) + ['\n'];
        log := log + line;
      }
      entries := entries + [Heard(resp)];
      assert entries[..|entries| - 1] == before;
    }

    method RunAT(cmd: string, x: Exchange, codes: seq<string>) returns (reply: Reply)
      requires Valid() && Timed(x) && forall j :: 0 <= j < |codes| ==> codes[j] != ""
      modifies this
      ensures Valid() && entries == old(entries) + Said(cmd, reply)
      ensures Replies(x, codes, reply)
    {
      hide Hears, Written;
      LogCmd(cmd);
      if x.writeFails {
        return NotSent;
      }
      var resp, how, used := ReadUntil(x.script, x.deadline, codes);
      LogResp(resp);
      assert Hears(x.script, x.deadline, codes, resp, how, used);
      return Reply(resp, how);
    }

    // Sends commands until one is not accepted; `done` is how many were.
    method Configure(cmds: seq<string>, xs: seq<Exchange>) returns (done: nat, replies: seq<Reply>)
      requires Valid() && |xs| == |cmds| && forall k :: 0 <= k < |xs| ==> Timed(xs[k])
      modifies this
      ensures Valid() && Counted(replies, |cmds|, done)
      ensures forall k :: 0 <= k < |replies| ==> Replies(xs[k], OK_OR_ERROR, replies[k])
      ensures entries == old(entries) + SaidAll(cmds, replies)
    {
      hide Replies, Written, Timed, Contains, Said, SaidAll;
      done, replies := 0, [];
      SaidNothing(cmds);
      while done < |cmds|
        invariant done <= |cmds| && |replies| == done && Valid()
        invariant forall k :: 0 <= k < done ==> Replies(xs[k], OK_OR_ERROR, replies[k])
        invariant forall k :: 0 <= k < done ==> Accepted(replies[k])
        invariant entries == old(entries) + SaidAll(cmds, replies)
      {
        var reply := RunAT(cmds[done], xs[done], OK_OR_ERROR);
        SaidMore(cmds, replies, reply, old(entries));
        replies := replies + [reply];
        if reply.NotSent? || reply.how != Matched {
          return;
        }
        if Contains(reply.resp, "ERROR") {
          return;
        }
        done := done + 1;
      }
    }

    // The dial result, the transcript, and whether the command could not be sent at all.
    method Dial(phone: string, x: Exchange)
      returns (result: DialResult, transcript: string, failed: bool, ghost reply: Reply)
      requires Valid() && Timed(x)
      modifies this
      ensures Valid() && transcript == log && entries == old(entries) + Said("ATDT" + phone, reply)
      ensures Replies(x, DialCodes(), reply) && (failed <==> x.writeFails)
      ensures match reply
              case NotSent => result == Error
              case Reply(resp, how) => result == if how == Matched then Classify(resp) else Timeout
    {
      hide Hears, Written;
      var cmd := "ATDT" + phone;
      LogCmd(cmd);
      if x.writeFails {
        return Error, log, true, NotSent;
      }
      CodesAreNonempty();
      var resp, how, used := ReadUntil(x.script, x.deadline, DialCodes());
      LogResp(resp);
      assert Hears(x.script, x.deadline, DialCodes(), resp, how, used);
      reply := Reply(resp, how);
      if how != Matched {
        return Timeout, log, false, reply;
      }
      if Contains(resp, "CONNECT") {
        result := Connect;
      } else if Contains(resp, "BUSY") {
        result := Busy;
      } else if Contains(resp, "NO CARRIER") {
        result := NoCarrier;
      } else if Contains(resp, "NO DIALTONE") {
        result := NoDialtone;
      } else {
        result := Error;
      }
      return result, log, false, reply;
    }
  }

  lemma TerminatedOne(line: string)
    ensures Text.Terminated([line], '\n') == line + ['\n']
  {
    assert [line][..0] == [];
    assert Text.Terminated([], '\n') == "";
    assert "" + line == line;
  }

  // ------------------------------------------------------------------ when acceptance is right

  // The modem has refused: ERROR was heard, in any case, as the read loop hears it.
  predicate HeardError(resp: string) {
    Contains(Upper(resp), "ERROR")
  }

  predicate TrulyAccepted(reply: Reply) {
    reply.Reply? && reply.how == Matched && !HeardError(reply.resp)
  }

  // `n` commands were accepted, and then one was not, if there was one more.
  ghost predicate TrueCount(replies: seq<Reply>, n: nat) {
    && n <= |replies| && (forall k :: 0 <= k < n ==> TrulyAccepted(replies[k]))
    && (n < |replies| ==> !TrulyAccepted(replies[n]))
  }

  lemma CapitalsAreHeard(resp: string)
    requires Contains(resp, "ERROR")
    ensures HeardError(resp)
  {
    assert NoLower("ERROR");
    ContainsUpper(resp, "ERROR");
  }

  // A refusal written in small letters, in part at least.
  predicate Muffled(reply: Reply) {
    reply.Reply? && reply.how == Matched && HeardError(reply.resp) && !Contains(reply.resp, "ERROR")
  }

  // Accepting is right for every reply but these.
  lemma AcceptedRightlyIffNotMuffled(reply: Reply)
    ensures (Accepted(reply) <==> TrulyAccepted(reply)) <==> !Muffled(reply)
  {
    hide HeardError, Contains;
    if reply.Reply? && Contains(reply.resp, "ERROR") {
      CapitalsAreHeard(reply.resp);
    }
  }

  // Configure counts the commands the modem accepted iff no reply was a muffled refusal.
  lemma CountsRightlyIffNoneMuffled(replies: seq<Reply>, commands: nat, done: nat)
    requires Counted(replies, commands, done)
    ensures TrueCount(replies, done) <==> forall k :: 0 <= k < |replies| ==> !Muffled(replies[k])
  {
    hide Accepted, TrulyAccepted, Muffled;
    forall k | 0 <= k < |replies|
      ensures (Accepted(replies[k]) <==> TrulyAccepted(replies[k])) <==> !Muffled(replies[k])
      ensures Muffled(replies[k]) ==> Accepted(replies[k]) && !TrulyAccepted(replies[k])
    {
      AcceptedRightlyIffNotMuffled(replies[k]);
      MuffledIsAccepted(replies[k]);
    }
  }

  lemma MuffledIsAccepted(reply: Reply)
    ensures Muffled(reply) ==> Accepted(reply) && !TrulyAccepted(reply)
  {
  }

  // ------------------------------------------------------------------ modems that answer in capitals

  // What the device sends in answer has no lower-case letter, however it is cut into reads.
  predicate InCapitals(x: Exchange) {
    forall j | 0 <= j < |x.script| :: NoLower(x.script[j].data)
  }

  lemma {:induction false} ReceivedInCapitals(script: seq<Tick>, k: nat)
    requires k <= |script| && forall j :: 0 <= j < |script| ==> NoLower(script[j].data)
    ensures NoLower(Received(script, k))
  {
    if k > 0 {
      ReceivedInCapitals(script, k - 1);
      NoLowerBoth(Received(script, k - 1), script[k - 1].data);
    }
  }

  lemma NoLowerBoth(s: string, t: string)
    requires NoLower(s) && NoLower(t)
    ensures NoLower(s + t)
  {
  }

  lemma CapitalsAreNotMuffled(x: Exchange, codes: seq<string>, reply: Reply)
    requires InCapitals(x) && Replies(x, codes, reply)
    ensures !Muffled(reply)
  {
    hide Contains, Hit;
    if reply.Reply? {
      var used: nat :| Hears(x.script, x.deadline, codes, reply.resp, reply.how, used);
      ReceivedInCapitals(x.script, used);
      UpperStays(reply.resp);
    }
  }

  // With such a modem Configure counts rightly.
  lemma CapitalsAreCounted(xs: seq<Exchange>, replies: seq<Reply>, done: nat)
    requires Counted(replies, |xs|, done)
    requires forall k :: 0 <= k < |replies| ==> InCapitals(xs[k]) && Replies(xs[k], OK_OR_ERROR, replies[k])
    ensures TrueCount(replies, done)
  {
    hide TrueCount, InCapitals, Replies, Muffled, Accepted;
    forall k | 0 <= k < |replies| ensures !Muffled(replies[k]) {
      CapitalsAreNotMuffled(xs[k], OK_OR_ERROR, replies[k]);
    }
    CountsRightlyIffNoneMuffled(replies, |xs|, done);
  }

  // The device answers with one of the two codes: some boundary before the deadline has it, in
  // capitals, and not the other.
  ghost predicate Answers(x: Exchange, code: string, other: string) {
    && !x.writeFails
    && exists n: nat :: Reach(x.script, x.deadline, n) && SaysOnly(Received(x.script, n), code, other)
  }

  predicate SaysOnly(text: string, code: string, other: string) {
    NoLower(text) && Contains(text, code) && !Contains(text, other)
  }

  lemma OkOrError()
    ensures NoLower("OK") && NoLower("ERROR") && Upper("OK") == "OK" && Upper("ERROR") == "ERROR"
  {
    UpperStays("OK");
    UpperStays("ERROR");
  }

  lemma HitsOkOrError(text: string)
    requires NoLower(text)
    ensures Hit(text, OK_OR_ERROR) <==> Contains(text, "OK") || Contains(text, "ERROR")
  {
    hide Contains, Upper, NoLower;
    OkOrError();
    UpperStays(text);
    var codes := OK_OR_ERROR;
    assert codes[0] == "OK" && codes[1] == "ERROR";
    if Contains(text, "OK") {
      assert Contains(Upper(text), Upper(codes[0]));
    }
    if Contains(text, "ERROR") {
      assert Contains(Upper(text), Upper(codes[1]));
    }
  }

  // What is heard is a prefix of that answer, and says the same.
  lemma AnswerIsHeard(x: Exchange, reply: Reply, code: string, other: string)
    requires Answers(x, code, other) && Replies(x, OK_OR_ERROR, reply)
    requires (code == "OK" && other == "ERROR") || (code == "ERROR" && other == "OK")
    ensures reply.Reply? && reply.how == Matched && SaysOnly(reply.resp, code, other)
  {
    hide Contains, Upper, NoLower, Hit, Hears;
    var n: nat :| Reach(x.script, x.deadline, n) && SaysOnly(Received(x.script, n), code, other);
    var used: nat :| Hears(x.script, x.deadline, OK_OR_ERROR, reply.resp, reply.how, used);
    var text := Received(x.script, n);
    HitsOkOrError(text);
    MatchedIffSomeBoundaryHits(x.script, x.deadline, OK_OR_ERROR, reply.resp, reply.how, used);
    HearsGives(x.script, x.deadline, OK_OR_ERROR, reply.resp, reply.how, used);
    ReachGives(x.script, x.deadline, n);
    ReceivedGrows(x.script, used, n);
    NoLowerPrefix(reply.resp, text);
    HitsOkOrError(reply.resp);
    if Contains(reply.resp, other) {
      ContainsInLonger(reply.resp, text, other);
    }
  }

  // A modem that answers each command with OK or with ERROR, in capitals: Configure accepts just
  // the commands answered with OK, up to the first answered with ERROR, under every chunking.
  lemma ConfigureTellsOkFromError(xs: seq<Exchange>, replies: seq<Reply>, done: nat)
    requires Counted(replies, |xs|, done)
    requires forall k :: 0 <= k < |replies| ==> Replies(xs[k], OK_OR_ERROR, replies[k])
    requires forall k :: 0 <= k < |xs| ==> Answers(xs[k], "OK", "ERROR") || Answers(xs[k], "ERROR", "OK")
    ensures forall k :: 0 <= k < done ==> Answers(xs[k], "OK", "ERROR")
    ensures done < |xs| ==> Answers(xs[done], "ERROR", "OK")
  {
    hide Answers, Replies, Contains, NoLower;
    forall k | 0 <= k < |replies|
      ensures Answers(xs[k], "OK", "ERROR") ==> Accepted(replies[k])
      ensures Answers(xs[k], "ERROR", "OK") ==> !Accepted(replies[k])
    {
      if Answers(xs[k], "OK", "ERROR") {
        AnswerIsHeard(xs[k], replies[k], "OK", "ERROR");
      }
      if Answers(xs[k], "ERROR", "OK") {
        AnswerIsHeard(xs[k], replies[k], "ERROR", "OK");
      }
    }
  }

  // The reply to a command is determined by what the device does.
  lemma RepliesOnce(x: Exchange, codes: seq<string>, a: Reply, b: Reply)
    requires Replies(x, codes, a) && Replies(x, codes, b)
    ensures a == b
  {
    hide Hears;
    if !x.writeFails {
      var m: nat :| Hears(x.script, x.deadline, codes, a.resp, a.how, m);
      var n: nat :| Hears(x.script, x.deadline, codes, b.resp, b.how, n);
      HearsOnce(x.script, x.deadline, codes, a.resp, a.how, m, b.resp, b.how, n);
    }
  }

  // Such a reply: Configure hears a refusal in lower case and takes it for an acceptance.
  lemma LowerCaseErrorIsAccepted(now: int)
    ensures Muffled(Reply("error", Matched))
    ensures Replies(Exchange(false, [Tick(now, now, "error", NoError)], now + 1), OK_OR_ERROR, Reply("error", Matched))
    ensures Accepted(Reply("error", Matched))
  {
    hide Hears;
    assert Upper("error") == "ERROR";
    assert Upper("ERROR") == "ERROR";
    assert OccursAt("ERROR", "ERROR", 0);
    assert Contains(Upper("error"), Upper(OK_OR_ERROR[1]));
    OneRead(now, "error", OK_OR_ERROR);
    Absent("error", "ERROR");
  }
}
