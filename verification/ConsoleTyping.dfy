/**
 What typing does to the line (handleKey, internal/tui/connected.go:292-367): the line that Enter
 sends is the editing result of the keys since the last one, whatever else arrives in between.
 Also what the session does by itself: keep reading, and wake the remote side until it answers.
 */
module ConsoleTyping {
  import opened Console
  import opened ConsoleRuns

  // One editing key, or a message that does not concern the line.
  datatype Stroke = Char(c: char) | Rub | Clear | Aside(msg: Msg)

  predicate IsText(c: char) {
    0x20 <= c as int <= 0x7e
  }

  // Output, ticks, ctrl+l, and keys without a printable character.
  predicate IsAside(msg: Msg) {
    match msg
    case Data(_) => true
    case WakeTick => true
    case Ignored => true
    case Press(Other(name)) => |name| != 1 || !IsText(name[0])
    case Press(key) => key == CtrlL
    case _ => false
  }

  predicate Strokes(ks: seq<Stroke>) {
    forall i | 0 <= i < |ks| ::
      (ks[i].Char? ==> IsText(ks[i].c)) && (ks[i].Aside? ==> IsAside(ks[i].msg))
  }

  function MsgOf(k: Stroke): Msg {
    match k
    case Char(c) => Press(Other([c]))
    case Rub => Press(Backspace)
    case Clear => Press(CtrlU)
    case Aside(msg) => msg
  }

  function Msgs(ks: seq<Stroke>): seq<Msg> {
    seq(|ks|, i requires 0 <= i < |ks| => MsgOf(ks[i]))
  }

  // The line after a key.
  function Edit(line: string, k: Stroke): string {
    match k
    case Char(c) => line + [c]
    case Rub => if line == "" then "" else line[..|line| - 1]
    case Clear => ""
    case Aside(_) => line
  }

  function Edited(line: string, ks: seq<Stroke>): string {
    if ks == [] then line else Edit(Edited(line, ks[..|ks| - 1]), ks[|ks| - 1])
  }

  // ------------------------------------------------------------------ every key sequence

  // What editing leaves alone.
  predicate SameMode(v: View, w: View) {
    w.batchMode == v.batchMode && w.batchLines == v.batchLines && w.history == v.history
    && w.prevWasEnter == v.prevWasEnter && w.cleaning == v.cleaning && w.historyIdx == v.historyIdx
  }

  lemma StrokeEdits(v: View, k: Stroke)
    requires !v.cleaning && Strokes([k])
    ensures var (w, cmds) := After(v, MsgOf(k));
            && w.input == Edit(v.input, k) && SameMode(v, w)
            && forall c :: c in cmds ==> LinesOf(c) == [] || c.SendWake?
  {
    hide Scrollback.Trim, Scrollback.Normalise, Navigate, SubmitLine, LossNote, LeaveNote;
    assert [k][0] == k;
    if k.Aside? {
      AsideEdits(v, k.msg);
    }
  }

  lemma AsideEdits(v: View, msg: Msg)
    requires !v.cleaning && IsAside(msg)
    ensures var (w, cmds) := After(v, msg);
            && w.input == v.input && SameMode(v, w)
            && forall c :: c in cmds ==> LinesOf(c) == [] || c.SendWake?
  {
    hide Scrollback.Trim, Scrollback.Normalise, Navigate, SubmitLine, LossNote, LeaveNote;
  }

  lemma RunMore(site: string, msgs: seq<Msg>, msg: Msg)
    ensures Run(site, msgs + [msg]) == After(Run(site, msgs), msg).0
  {
    assert (msgs + [msg])[..|msgs|] == msgs;
  }

  // Any editing keys, with anything arriving in between, edit the line and nothing else.
  lemma {:induction false} KeysEditLine(site: string, msgs: seq<Msg>, ks: seq<Stroke>)
    requires !Run(site, msgs).cleaning && Strokes(ks)
    ensures var v, w := Run(site, msgs), Run(site, msgs + Msgs(ks));
            w.input == Edited(v.input, ks) && SameMode(v, w)
  {
    if ks == [] {
      assert msgs + Msgs(ks) == msgs;
      return;
    }
    var before, k := ks[..|ks| - 1], ks[|ks| - 1];
    KeysEditLine(site, msgs, before);
    assert [k][0] == k;
    StrokeEdits(Run(site, msgs + Msgs(before)), k);
    RunMore(site, msgs + Msgs(before), MsgOf(k));
    assert msgs + Msgs(ks) == msgs + Msgs(before) + [MsgOf(k)];
  }

  // Then Enter in normal mode sends exactly that line, and a new line begins.
  lemma EnterSendsTheLine(site: string, msgs: seq<Msg>, ks: seq<Stroke>)
    requires !Run(site, msgs).cleaning && !Run(site, msgs).batchMode && Strokes(ks)
    requires Edited(Run(site, msgs).input, ks) == "~." ==> !Armed(Submissions(site, msgs))
    ensures var line := Edited(Run(site, msgs).input, ks);
            var (w, cmds) := After(Run(site, msgs + Msgs(ks)), Press(Enter));
            cmds == [SendLine(line)] && w.input == "" && !w.cleaning
  {
    KeysEditLine(site, msgs, ks);
    ArmedByLastEnter(site, msgs);
    hide Run, Remember, Edited, Submissions;
  }

  // In batch mode it is put by for the batch.
  lemma EnterKeepsTheLine(site: string, msgs: seq<Msg>, ks: seq<Stroke>)
    requires !Run(site, msgs).cleaning && Run(site, msgs).batchMode && Strokes(ks)
    requires Edited(Run(site, msgs).input, ks) == "~." ==> !Armed(Submissions(site, msgs))
    ensures var line := Edited(Run(site, msgs).input, ks);
            var (w, cmds) := After(Run(site, msgs + Msgs(ks)), Press(Enter));
            && cmds == [] && w.batchLines == Run(site, msgs).batchLines + [line]
            && w.input == "" && w.batchMode && !w.cleaning
  {
    KeysEditLine(site, msgs, ks);
    ArmedByLastEnter(site, msgs);
    hide Run, Remember, Edited, Submissions;
  }

  // A line begins empty: at the start of the session, and after every Enter that submitted one.
  lemma LinesBeginEmpty(site: string, msgs: seq<Msg>)
    ensures Run(site, []).input == ""
    ensures !Run(site, msgs).cleaning && !Run(site, msgs + [Press(Enter)]).cleaning ==>
              Run(site, msgs + [Press(Enter)]).input == ""
  {
    RunMore(site, msgs, Press(Enter));
    hide Run, Remember;
    assert Run(site, []).input == "" by { StartsEmpty(site); }
  }

  lemma StartsEmpty(site: string)
    ensures Run(site, []).input == ""
  {
  }

  // ------------------------------------------------------------------ what editing comes to

  function Chars(t: string): seq<Stroke> {
    seq(|t|, i requires 0 <= i < |t| => Char(t[i]))
  }

  lemma EditedMore(line: string, ks: seq<Stroke>, k: Stroke)
    ensures Edited(line, ks + [k]) == Edit(Edited(line, ks), k)
  {
    assert (ks + [k])[..|ks|] == ks;
  }

  // Typing a text puts it at the end of the line; rubbing out n characters takes the last n away,
  // or all; clearing takes all.
  lemma {:induction false} TypingAppends(line: string, t: string)
    ensures Edited(line, Chars(t)) == line + t
  {
    if t == "" {
      assert Chars(t) == [] && line + t == line;
    } else {
      var n := |t| - 1;
      TypingAppends(line, t[..n]);
      EditedMore(line, Chars(t[..n]), Char(t[n]));
      assert Chars(t) == Chars(t[..n]) + [Char(t[n])];
      assert line + t == line + t[..n] + [t[n]];
    }
  }

  function Rubs(n: nat): seq<Stroke> {
    if n == 0 then [] else Rubs(n - 1) + [Rub]
  }

  lemma {:induction false} RubbingTakesFromTheEnd(line: string, n: nat)
    ensures Edited(line, Rubs(n)) == if n < |line| then line[..|line| - n] else ""
  {
    if n > 0 {
      hide Edited;
      RubbingTakesFromTheEnd(line, n - 1);
      EditedMore(line, Rubs(n - 1), Rub);
    }
  }

  lemma {:induction false} ClearingForgets(line: string, before: seq<Stroke>, after: seq<Stroke>)
    ensures Edited(line, before + [Clear] + after) == Edited("", after)
  {
    if after == [] {
      assert before + [Clear] + after == before + [Clear];
      EditedMore(line, before, Clear);
    } else {
      var n := |after| - 1;
      ClearingForgets(line, before, after[..n]);
      EditedMore(line, before + [Clear] + after[..n], after[n]);
      assert before + [Clear] + after == before + [Clear] + after[..n] + [after[n]];
    }
  }

  // The keys of a text and Enter, at the beginning of a line, send that text.
  lemma TypedTextIsSent(site: string, msgs: seq<Msg>, t: string)
    requires !Run(site, msgs).cleaning && !Run(site, msgs).batchMode && Run(site, msgs).input == ""
    requires (forall i :: 0 <= i < |t| ==> IsText(t[i])) && t != "~."
    ensures After(Run(site, msgs + Msgs(Chars(t))), Press(Enter)).1 == [SendLine(t)]
  {
    hide Run, Submissions, After;
    TypingAppends("", t);
    assert "" + t == t;
    EnterSendsTheLine(site, msgs, Chars(t));
  }

  // ------------------------------------------------------------------ reading and waking

  predicate HasAnswered(msgs: seq<Msg>) {
    exists k | 0 <= k < |msgs| :: msgs[k].Data?
  }

  lemma {:induction false} GotDataIffAnswered(site: string, msgs: seq<Msg>)
    requires !Run(site, msgs).cleaning
    ensures Run(site, msgs).gotData <==> HasAnswered(msgs)
  {
    if msgs != [] {
      var before, msg := msgs[..|msgs| - 1], msgs[|msgs| - 1];
      CleaningStep(Run(site, before), msg);
      GotDataStep(Run(site, before), msg);
      hide After;
      GotDataIffAnswered(site, before);
      assert msgs == before + [msg];
      assert HasAnswered(msgs) <==> HasAnswered(before) || msg.Data? by {
        assert forall k :: 0 <= k < |before| ==> msgs[k] == before[k];
        assert msgs[|before|] == msg;
      }
    }
  }

  lemma GotDataStep(v: View, msg: Msg)
    requires !v.cleaning
    ensures After(v, msg).0.gotData <==> v.gotData || msg.Data?
  {
    hide Scrollback.Trim, Scrollback.Normalise, LossNote, LeaveNote, Remember;
    NavigateSpares(v, -1);
    NavigateSpares(v, 1);
    hide Navigate;
  }

  // A live session reads on after every chunk, and at every tick wakes the remote side and waits
  // for another tick, until the first chunk has come.
  lemma ReadsOnAndWakes(site: string, msgs: seq<Msg>, bytes: string)
    requires !Run(site, msgs).cleaning
    ensures After(Run(site, msgs), Data(bytes)).1 == [AwaitData]
    ensures After(Run(site, msgs), WakeTick).1 == if HasAnswered(msgs) then [] else [SendWake, ScheduleWake]
  {
    GotDataIffAnswered(site, msgs);
    hide Run, Scrollback.Trim, Scrollback.Normalise;
  }

  // ------------------------------------------------------------------ leaving

  lemma CarrierStep(v: View, msg: Msg)
    requires !v.cleaning && !v.carrierLost && !After(v, msg).0.cleaning
    ensures !After(v, msg).0.carrierLost
  {
    if msg.Press? {
      KeyCleanup(v, msg.key);
    }
    hide PressKey, Scrollback.Trim, Scrollback.Normalise, LossNote;
  }

  lemma {:induction false} CarrierHeldSoFar(site: string, msgs: seq<Msg>)
    requires !Run(site, msgs).cleaning
    ensures !Run(site, msgs).carrierLost
  {
    if msgs != [] {
      var before, msg := msgs[..|msgs| - 1], msgs[|msgs| - 1];
      CleaningStep(Run(site, before), msg);
      hide After;
      CarrierHeldSoFar(site, before);
      CarrierStep(Run(site, before), msg);
    }
  }

  lemma KeyNote(v: View, key: Key)
    requires !v.cleaning && PressKey(v, key).0.cleaning
    ensures PressKey(v, key).0.output == v.output + LeaveNote()
  {
    hide Navigate, LeaveNote, Remember;
    NavigateSpares(v, -1);
    NavigateSpares(v, 1);
  }

  lemma Notes(reason: string)
    ensures LeaveNote() == "\n*** DISCONNECTED ***\n" && LossNote(reason) == "\n*** " + reason + " ***\n"
    ensures Banner(reason) == "*** CONNECTED to " + reason + " ***\n"
  {
  }

  // The note a session leaves with, and whether it hangs up: not after the carrier was lost.
  lemma LeavesWithANote(site: string, msgs: seq<Msg>, msg: Msg)
    requires !Run(site, msgs).cleaning && After(Run(site, msgs), msg).0.cleaning
    ensures var v, (w, cmds) := Run(site, msgs), After(Run(site, msgs), msg);
            match msg
            case Disconnected(reason) =>
              cmds == [Cleanup(true)] && w.output == v.output + ("\n*** " + reason + " ***\n")
            case _ => cmds == [Cleanup(false)] && w.output == v.output + "\n*** DISCONNECTED ***\n"
  {
    var v := Run(site, msgs);
    CarrierHeldSoFar(site, msgs);
    hide Run, PressKey, Scrollback.Trim, Scrollback.Normalise, LossNote, LeaveNote;
    if msg.Press? {
      KeyCleanup(v, msg.key);
      KeyNote(v, msg.key);
    }
    Notes(if msg.Disconnected? then msg.reason else "");
  }
}
