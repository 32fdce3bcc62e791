/**
 What holds of a connected session over any sequence of messages: its history, its cursor, its
 batches, its escape sequence, its scrollback and its one cleanup, each stated in terms of what
 has happened since the session began.
 */
module ConsoleRuns {
  import opened Seqs
  import opened Wrappers
  import opened Text
  import opened Scrollback
  import opened Console

  function Run(site: string, msgs: seq<Msg>): View {
    if msgs == [] then Fresh(site)
    else After(Run(site, msgs[..|msgs| - 1]), msgs[|msgs| - 1]).0
  }

  function Issued(site: string, msgs: seq<Msg>): seq<Cmd> {
    if msgs == [] then []
    else Issued(site, msgs[..|msgs| - 1]) + After(Run(site, msgs[..|msgs| - 1]), msgs[|msgs| - 1]).1
  }

  // ------------------------------------------------------------------ bounds and printability

  ghost predicate AllPrintable(s: string) {
    forall i :: 0 <= i < |s| ==> Printable(s[i])
  }

  ghost predicate PrintableLines(ls: seq<string>) {
    forall k :: 0 <= k < |ls| ==> AllPrintable(ls[k])
  }

  ghost predicate Sound(v: View) {
    && -1 <= v.historyIdx < |v.history| <= MAX_HISTORY
    && AllPrintable(v.input) && AllPrintable(v.historyTmp)
    && PrintableLines(v.history) && PrintableLines(v.batchLines)
    && (!v.batchMode ==> v.batchLines == [])
  }

  function LinesOf(cmd: Cmd): seq<string> {
    match cmd
    case SendLine(line) => [line]
    case SendBatch(lines) => lines
    case SendWake => [""]
    case _ => []
  }

  ghost predicate PrintableCmds(cmds: seq<Cmd>) {
    forall k :: 0 <= k < |cmds| ==> PrintableLines(LinesOf(cmds[k]))
  }

  lemma SoundNavigate(v: View, dir: int)
    requires Sound(v) && (dir == -1 || dir == 1)
    ensures Sound(Navigate(v, dir))
  {
    NavigateSpares(v, dir);
    NavigateStays(v, dir);
    hide Navigate, AllPrintable;
  }

  // The index stays in range, and the line shown comes from the history or was typed.
  lemma NavigateStays(v: View, dir: int)
    requires -1 <= v.historyIdx < |v.history| && (dir == -1 || dir == 1)
    ensures var w := Navigate(v, dir);
            && -1 <= w.historyIdx < |v.history|
            && (w.input == v.input || w.input == v.historyTmp || w.input in v.history)
            && (w.historyTmp == v.input || w.historyTmp == v.historyTmp)
  {
  }

  lemma SoundSubmit(v: View)
    requires Sound(v)
    ensures Sound(SubmitLine(v).0) && PrintableCmds(SubmitLine(v).1)
  {
  }

  lemma SoundKey(v: View, key: Key)
    requires Sound(v)
    ensures Sound(PressKey(v, key).0) && PrintableCmds(PressKey(v, key).1)
  {
    match key {
      case Up => SoundNavigate(v, -1);
      case Down => SoundNavigate(v, 1);
      case Enter => SoundSubmit(v);
      case _ =>
    }
  }

  lemma SoundStep(v: View, msg: Msg)
    requires Sound(v)
    ensures Sound(After(v, msg).0) && PrintableCmds(After(v, msg).1)
  {
    if msg.Press? {
      SoundKey(v, msg.key);
    }
  }

  // In every reachable state the history index is in range and nothing but printable characters
  // is held anywhere, so no line that is sent contains a carriage return.
  lemma {:induction false} SessionsStaySound(site: string, msgs: seq<Msg>)
    ensures Sound(Run(site, msgs)) && PrintableCmds(Issued(site, msgs))
  {
    if msgs != [] {
      SessionsStaySound(site, msgs[..|msgs| - 1]);
      SoundStep(Run(site, msgs[..|msgs| - 1]), msgs[|msgs| - 1]);
    }
  }

  // ------------------------------------------------------------------ history

  // The non-empty line a command submits in normal mode.
  function SubmittedBy(cmd: Cmd): seq<string> {
    if cmd.SendLine? && cmd.line != "" then [cmd.line] else []
  }

  // The non-empty lines submitted in normal mode, in order.
  function Submitted(cmds: seq<Cmd>): seq<string> {
    FlatMap(SubmittedBy, cmds)
  }

  // Of adjacent equal lines keep one.
  function Collapse(ls: seq<string>): seq<string> {
    if ls == [] then []
    else
      var r, last := Collapse(ls[..|ls| - 1]), ls[|ls| - 1];
      if |r| > 0 && r[|r| - 1] == last then r else r + [last]
  }

  lemma RememberIsCollapse(ls: seq<string>, line: string)
    requires line != ""
    ensures Remember(Last(Collapse(ls), MAX_HISTORY), line) == Last(Collapse(ls + [line]), MAX_HISTORY)
  {
    var c := Collapse(ls);
    CollapseMore(ls, line);
    hide Collapse;
    LastKeepsEnd(c, MAX_HISTORY);
    if !(|c| > 0 && c[|c| - 1] == line) {
      LastMore(c, line, MAX_HISTORY);
    }
  }

  lemma CollapseMore(ls: seq<string>, line: string)
    ensures var c := Collapse(ls);
            Collapse(ls + [line]) == if |c| > 0 && c[|c| - 1] == line then c else c + [line]
  {
    assert (ls + [line])[..|ls|] == ls;
  }

  lemma LastKeepsEnd(c: seq<string>, n: nat)
    requires n > 0
    ensures |Last(c, n)| > 0 <==> |c| > 0
    ensures |c| > 0 ==> Last(c, n)[|Last(c, n)| - 1] == c[|c| - 1]
  {
  }

  lemma LastMore(c: seq<string>, line: string, n: nat)
    requires n > 0
    ensures Last(Last(c, n) + [line], n) == Last(c + [line], n)
  {
    if |c| > n {
      assert Last(c, n) + [line] == (c + [line])[|c| - n..];
    }
  }

  // The arrow keys change the input line and the cursor, nothing else.
  lemma NavigateSpares(v: View, dir: int)
    ensures var w := Navigate(v, dir);
            w == v.(input := w.input, historyIdx := w.historyIdx, historyTmp := w.historyTmp)
  {
  }

  lemma OtherKeysSubmitNothing(v: View, key: Key)
    requires key != Enter
    ensures var (w, cmds) := PressKey(v, key);
            && w.history == v.history && w.prevWasEnter == v.prevWasEnter
            && |cmds| <= 1 && forall k :: 0 <= k < |cmds| ==> !cmds[k].SendLine?
  {
    hide Navigate, LeaveNote;
    NavigateSpares(v, -1);
    NavigateSpares(v, 1);
  }

  // Only Enter submits lines or touches the history.
  lemma OnlyEnterSubmits(v: View, msg: Msg)
    requires v.cleaning || msg != Press(Enter)
    ensures var (w, cmds) := After(v, msg);
            && w.history == v.history && w.prevWasEnter == v.prevWasEnter
            && |cmds| <= 2 && forall k :: 0 <= k < |cmds| ==> !cmds[k].SendLine?
  {
    hide PressKey, Trim, Normalise, LossNote;
    if msg.Press? && msg.key != Enter {
      OtherKeysSubmitNothing(v, msg.key);
    }
  }

  lemma HistoryStep(v: View, msg: Msg, ls: seq<string>)
    requires v.history == Last(Collapse(ls), MAX_HISTORY)
    ensures After(v, msg).0.history == Last(Collapse(ls + Submitted(After(v, msg).1)), MAX_HISTORY)
  {
    hide Trim, Normalise, LeaveNote, LossNote, Last, Collapse, FlatMap;
    var cmds := After(v, msg).1;
    assert ls + [] == ls;
    if v.cleaning || msg != Press(Enter) {
      OnlyEnterSubmits(v, msg);
      FlatMapSmall(SubmittedBy, cmds);
    } else {
      FlatMapSmall(SubmittedBy, cmds);
      if cmds == [SendLine(v.input)] && v.input != "" {
        RememberIsCollapse(ls, v.input);
      }
    }
  }

  // The history is the last hundred of the collapsed list of all lines submitted so far.
  lemma {:induction false} HistoryIsCollapsedTail(site: string, msgs: seq<Msg>)
    ensures Run(site, msgs).history == Last(Collapse(Submitted(Issued(site, msgs))), 100)
  {
    if msgs != [] {
      hide After, Fresh, Collapse, FlatMap;
      var before, msg := msgs[..|msgs| - 1], msgs[|msgs| - 1];
      HistoryIsCollapsedTail(site, before);
      HistoryStep(Run(site, before), msg, Submitted(Issued(site, before)));
      FlatMapConcat(SubmittedBy, Issued(site, before), After(Run(site, before), msg).1);
    }
  }

  // ------------------------------------------------------------------ the history cursor

  // Any number of up (-1) and down (1) keys.
  function Walk(v: View, dirs: seq<int>): View {
    if dirs == [] then v else Navigate(Walk(v, dirs[..|dirs| - 1]), dirs[|dirs| - 1])
  }

  function Clamp(x: int, n: nat): nat {
    if x < 0 then 0 else if x > n then n else x
  }

  // A cursor over n + 1 places that starts at the last one.
  function Cursor(n: nat, dirs: seq<int>): nat {
    if dirs == [] then n else Clamp(Cursor(n, dirs[..|dirs| - 1]) + dirs[|dirs| - 1], n)
  }

  lemma CursorInRange(n: nat, dirs: seq<int>)
    ensures Cursor(n, dirs) <= n
  {
  }

  ghost predicate At(v: View, w: View, pos: nat) {
    var n := |v.history|;
    && w.history == v.history && pos <= n
    && w.historyIdx == (if pos == n then -1 else pos)
    && w.input == (if pos == n then v.input else v.history[pos])
    && (pos < n ==> w.historyTmp == v.input)
  }

  // Up and down walk over the history followed by the line being typed, and stop at both ends.
  lemma {:induction false} ArrowsAreACursor(v: View, dirs: seq<int>)
    requires v.historyIdx == -1 && forall k :: 0 <= k < |dirs| ==> dirs[k] == -1 || dirs[k] == 1
    ensures Cursor(|v.history|, dirs) <= |v.history|
    ensures Walk(v, dirs).input == (v.history + [v.input])[Cursor(|v.history|, dirs)]
    ensures At(v, Walk(v, dirs), Cursor(|v.history|, dirs))
  {
    if dirs != [] {
      hide Navigate, At;
      var before, dir := dirs[..|dirs| - 1], dirs[|dirs| - 1];
      ArrowsAreACursor(v, before);
      OneArrow(v, Walk(v, before), Cursor(|v.history|, before), dir);
      AtShows(v, Walk(v, dirs), Cursor(|v.history|, dirs));
    }
  }

  lemma OneArrow(v: View, w: View, pos: nat, dir: int)
    requires At(v, w, pos) && (dir == -1 || dir == 1)
    ensures At(v, Navigate(w, dir), Clamp(pos + dir, |v.history|))
  {
  }

  lemma AtShows(v: View, w: View, pos: nat)
    requires At(v, w, pos)
    ensures pos <= |v.history| && w.input == (v.history + [v.input])[pos]
  {
  }

  lemma {:induction false} CursorDown(n: nat, dirs: seq<int>, k: nat)
    ensures Cursor(n, dirs + seq(k, i => 1)) == Clamp(Cursor(n, dirs) + k, n)
  {
    CursorInRange(n, dirs);
    if k == 0 {
      assert dirs + seq(0, i => 1) == dirs;
    } else {
      var more := dirs + seq(k, i => 1);
      assert more[..|more| - 1] == dirs + seq(k - 1, i => 1);
      CursorDown(n, dirs, k - 1);
    }
  }

  // Enough downs bring the typed line back, whatever came before them.
  lemma DownsRestoreTypedLine(v: View, dirs: seq<int>, k: nat)
    requires v.historyIdx == -1 && forall j :: 0 <= j < |dirs| ==> dirs[j] == -1 || dirs[j] == 1
    requires k >= |v.history|
    ensures Walk(v, dirs + seq(k, i => 1)).input == v.input
    ensures Walk(v, dirs + seq(k, i => 1)).historyIdx == -1
  {
    ArrowsAreACursor(v, dirs + seq(k, i => 1));
    CursorDown(|v.history|, dirs, k);
  }

  // ------------------------------------------------------------------ batches

  datatype Event =
    | TurnedOn
    | Entered(line: string)
    | Sent(lines: seq<string>)
    | Cancelled(lines: seq<string>)

  // What a message means for batch mode.
  function BatchEvent(v: View, msg: Msg): Option<Event> {
    if v.cleaning || !msg.Press? then None
    else if msg.key == CtrlB then Some(if v.batchMode then Cancelled(v.batchLines) else TurnedOn)
    else if msg.key == Esc && v.batchMode then Some(Cancelled(v.batchLines))
    else if msg.key == CtrlD && v.batchMode && |v.batchLines| > 0 then Some(Sent(v.batchLines))
    else if msg.key == Enter && v.batchMode && !Escapes(v) then Some(Entered(v.input))
    else None
  }

  function Listed<T>(o: Option<T>): seq<T> {
    if o.Some? then [o.value] else []
  }

  function Events(site: string, msgs: seq<Msg>): seq<Event> {
    if msgs == [] then []
    else
      Events(site, msgs[..|msgs| - 1])
      + Listed(BatchEvent(Run(site, msgs[..|msgs| - 1]), msgs[|msgs| - 1]))
  }

  // The lines entered since batch mode was last turned on.
  function SinceOn(evs: seq<Event>): seq<string> {
    if evs == [] then []
    else
      match evs[|evs| - 1]
      case TurnedOn => []
      case Entered(line) => SinceOn(evs[..|evs| - 1]) + [line]
      case _ => SinceOn(evs[..|evs| - 1])
  }

  // All lines entered in batch mode, those whose fate is decided, and the batches sent.

  function EnteredBy(e: Event): seq<string> {
    if e.Entered? then [e.line] else []
  }

  function SettledBy(e: Event): seq<string> {
    if e.Sent? || e.Cancelled? then e.lines else []
  }

  function SentBy(e: Event): seq<seq<string>> {
    if e.Sent? then [e.lines] else []
  }

  function BatchOf(cmd: Cmd): seq<seq<string>> {
    if cmd.SendBatch? then [cmd.lines] else []
  }

  ghost predicate BatchInv(v: View, evs: seq<Event>) {
    && v.batchLines == (if v.batchMode then SinceOn(evs) else [])
    && FlatMap(EnteredBy, evs) == FlatMap(SettledBy, evs) + v.batchLines
  }

  // The ways in which a message concerns batch mode, and what it does then.
  ghost predicate BatchCase(v: View, w: View, cmds: seq<Cmd>, event: Option<Event>) {
    match event
    case None => w.batchMode == v.batchMode && w.batchLines == v.batchLines && NoBatch(cmds)
    case Some(TurnedOn) => w.batchMode && !v.batchMode && w.batchLines == [] && NoBatch(cmds)
    case Some(Entered(line)) =>
      w.batchMode && v.batchMode && w.batchLines == v.batchLines + [line] && NoBatch(cmds)
    case Some(Sent(lines)) =>
      !w.batchMode && w.batchLines == [] && lines == v.batchLines && cmds == [SendBatch(lines)]
    case Some(Cancelled(lines)) =>
      !w.batchMode && w.batchLines == [] && lines == v.batchLines && NoBatch(cmds)
  }

  lemma EnterBatchCase(v: View)
    requires !v.cleaning
    ensures var (w, cmds) := SubmitLine(v); |cmds| <= 1 && BatchCase(v, w, cmds, BatchEvent(v, Press(Enter)))
  {
    hide LeaveNote, Remember;
  }

  lemma KeyBatchCase(v: View, key: Key)
    requires !v.cleaning && (!v.batchMode ==> v.batchLines == []) && key != Enter
    ensures var (w, cmds) := PressKey(v, key); |cmds| <= 1 && BatchCase(v, w, cmds, BatchEvent(v, Press(key)))
  {
    hide LeaveNote, Navigate, SubmitLine;
    NavigateSpares(v, -1);
    NavigateSpares(v, 1);
  }

  lemma BatchCases(v: View, msg: Msg)
    requires !v.batchMode ==> v.batchLines == []
    ensures var (w, cmds) := After(v, msg); |cmds| <= 2 && BatchCase(v, w, cmds, BatchEvent(v, msg))
  {
    if msg.Press? && !v.cleaning {
      hide BatchCase, BatchEvent, SubmitLine;
      if msg.key == Enter {
        EnterBatchCase(v);
      } else {
        hide PressKey;
        KeyBatchCase(v, msg.key);
      }
    } else {
      hide PressKey, Trim, Normalise, LossNote;
    }
  }

  predicate NoBatch(cmds: seq<Cmd>) {
    forall k :: 0 <= k < |cmds| ==> !cmds[k].SendBatch?
  }

  lemma BatchStep(v: View, msg: Msg, evs: seq<Event>)
    requires BatchInv(v, evs)
    ensures BatchInv(After(v, msg).0, evs + Listed(BatchEvent(v, msg)))
  {
    hide After, BatchEvent, FlatMap;
    BatchCases(v, msg);
    var be := Listed(BatchEvent(v, msg));
    assert evs + [] == evs;
    FlatMapConcat(EnteredBy, evs, be);
    FlatMapConcat(SettledBy, evs, be);
    FlatMapSmall(EnteredBy, be);
    FlatMapSmall(SettledBy, be);
    if |be| == 1 {
      assert (evs + be)[..|evs|] == evs;
    }
  }

  lemma BatchCommand(v: View, msg: Msg)
    requires !v.batchMode ==> v.batchLines == []
    ensures FlatMap(BatchOf, After(v, msg).1) == FlatMap(SentBy, Listed(BatchEvent(v, msg)))
  {
    hide After, BatchEvent, FlatMap;
    BatchCases(v, msg);
    FlatMapSmall(BatchOf, After(v, msg).1);
    FlatMapSmall(SentBy, Listed(BatchEvent(v, msg)));
  }

  // Every line entered in batch mode is, in order, part of a batch that was sent, or cancelled,
  // or still pending; the batches issued are exactly the sent ones; and what is pending is what
  // was entered since batch mode was last turned on.
  lemma {:induction false} BatchesAccountForEveryLine(site: string, msgs: seq<Msg>)
    ensures var v, evs := Run(site, msgs), Events(site, msgs);
            && FlatMap(EnteredBy, evs) == FlatMap(SettledBy, evs) + v.batchLines
            && FlatMap(BatchOf, Issued(site, msgs)) == FlatMap(SentBy, evs)
            && v.batchLines == (if v.batchMode then SinceOn(evs) else [])
  {
    if msgs == [] {
      return;
    }
    hide After, BatchEvent, FlatMap, SinceOn, Fresh;
    var before, msg := msgs[..|msgs| - 1], msgs[|msgs| - 1];
    BatchesAccountForEveryLine(site, before);
    var v, evs := Run(site, before), Events(site, before);
    BatchStep(v, msg, evs);
    BatchCommand(v, msg);
    FlatMapConcat(SentBy, evs, Listed(BatchEvent(v, msg)));
    FlatMapConcat(BatchOf, Issued(site, before), After(v, msg).1);
  }

  // ctrl+d sends exactly the lines entered since batch mode was last turned on.
  lemma CtrlDSendsBatch(site: string, msgs: seq<Msg>)
    requires !Run(site, msgs).cleaning && Run(site, msgs).batchMode
    ensures After(Run(site, msgs), Press(CtrlD)).1
         == if SinceOn(Events(site, msgs)) == [] then [] else [SendBatch(SinceOn(Events(site, msgs)))]
  {
    BatchesAccountForEveryLine(site, msgs);
  }

  // ------------------------------------------------------------------ the ~. escape

  datatype Submission = Submission(line: string, batch: bool)

  // Every Enter that submitted a line, with the mode it was pressed in.
  function Submissions(site: string, msgs: seq<Msg>): seq<Submission> {
    if msgs == [] then []
    else
      var v := Run(site, msgs[..|msgs| - 1]);
      Submissions(site, msgs[..|msgs| - 1])
      + if !v.cleaning && msgs[|msgs| - 1] == Press(Enter) && !Escapes(v) then [Submission(v.input, v.batchMode)]
        else []
  }

  // The last Enter submitted an empty line in normal mode, or any line in batch mode.
  predicate Armed(subs: seq<Submission>) {
    |subs| > 0 && (subs[|subs| - 1].batch || subs[|subs| - 1].line == "")
  }

  lemma ArmedStep(v: View, msg: Msg)
    ensures After(v, msg).0.prevWasEnter ==
            if !v.cleaning && msg == Press(Enter) && !Escapes(v) then v.batchMode || v.input == ""
            else v.prevWasEnter
  {
    hide Trim, Normalise, LeaveNote, LossNote, Remember;
    if v.cleaning || msg != Press(Enter) {
      OnlyEnterSubmits(v, msg);
    }
  }

  lemma {:induction false} ArmedByLastEnter(site: string, msgs: seq<Msg>)
    ensures Run(site, msgs).prevWasEnter <==> Armed(Submissions(site, msgs))
  {
    if msgs != [] {
      hide After, Escapes;
      var before, msg := msgs[..|msgs| - 1], msgs[|msgs| - 1];
      ArmedByLastEnter(site, before);
      assert Submissions(site, before) + [] == Submissions(site, before);
      ArmedStep(Run(site, before), msg);
    }
  }

  // Submitting ~. starts the cleanup iff the last Enter armed it; otherwise it is a line like any other.
  lemma EscapeIffArmed(site: string, msgs: seq<Msg>)
    requires !Run(site, msgs).cleaning && Run(site, msgs).input == "~."
    ensures After(Run(site, msgs), Press(Enter)).0.cleaning <==> Armed(Submissions(site, msgs))
    ensures (exists lost :: Cleanup(lost) in After(Run(site, msgs), Press(Enter)).1)
            <==> Armed(Submissions(site, msgs))
  {
    ArmedByLastEnter(site, msgs);
    var v := Run(site, msgs);
    if Armed(Submissions(site, msgs)) {
      assert Cleanup(v.carrierLost) in After(v, Press(Enter)).1;
    }
  }

  // ------------------------------------------------------------------ one cleanup

  function CleanupBy(cmd: Cmd): seq<Cmd> {
    if cmd.Cleanup? then [cmd] else []
  }

  lemma KeyCleanup(v: View, key: Key)
    ensures var (w, cmds) := PressKey(v, key);
            && w.carrierLost == v.carrierLost
            && (if w.cleaning && !v.cleaning then cmds == [Cleanup(v.carrierLost)]
                else if !v.cleaning then |cmds| <= 1 && forall k :: 0 <= k < |cmds| ==> !cmds[k].Cleanup?
                else true)
  {
    hide Navigate, LeaveNote, Remember;
    NavigateSpares(v, -1);
    NavigateSpares(v, 1);
  }

  // ctrl+c and the escape leave, other keys do not, and no key reports the end.
  lemma KeyLeaves(v: View, key: Key)
    requires !v.cleaning
    ensures var (w, cmds) := PressKey(v, key);
            && (w.cleaning <==> key == CtrlC || (key == Enter && Escapes(v)))
            && |cmds| <= 1 && ReportDone !in cmds
  {
    hide Navigate, LeaveNote, Remember;
    NavigateSpares(v, -1);
    NavigateSpares(v, 1);
  }

  lemma CleaningStep(v: View, msg: Msg)
    ensures var (w, cmds) := After(v, msg);
            && |cmds| <= 2
            && (if !v.cleaning && w.cleaning then cmds == [Cleanup(w.carrierLost)]
                else forall k :: 0 <= k < |cmds| ==> !cmds[k].Cleanup?)
            && (v.cleaning ==> w == v)
  {
    hide PressKey, Trim, Normalise, LossNote;
    if msg.Press? {
      KeyCleanup(v, msg.key);
    }
  }

  // ctrl+c, ~., carrier loss and stale messages in any order: one cleanup command at most, and
  // one exactly when the session is cleaning; it skips the hangup iff the carrier was lost.
  lemma {:induction false} OneCleanup(site: string, msgs: seq<Msg>)
    ensures FlatMap(CleanupBy, Issued(site, msgs))
         == if Run(site, msgs).cleaning then [Cleanup(Run(site, msgs).carrierLost)] else []
  {
    if msgs == [] {
      return;
    }
    hide After, FlatMap, Fresh;
    var before, msg := msgs[..|msgs| - 1], msgs[|msgs| - 1];
    OneCleanup(site, before);
    CleaningStep(Run(site, before), msg);
    var cmds := After(Run(site, before), msg).1;
    FlatMapConcat(CleanupBy, Issued(site, before), cmds);
    FlatMapSmall(CleanupBy, cmds);
  }

  // ------------------------------------------------------------------ the scrollback

  // All text since the banner or the last ctrl+l, never trimmed.
  function Shown(site: string, msgs: seq<Msg>): string {
    if msgs == [] then Banner(site)
    else
      match msgs[|msgs| - 1]
      case Data(bytes) => Shown(site, msgs[..|msgs| - 1]) + Normalise(bytes)
      case Press(key) => if key == CtrlL then "" else Shown(site, msgs[..|msgs| - 1])
      case _ => Shown(site, msgs[..|msgs| - 1])
  }

  lemma TrimShort(s: string, n: nat)
    requires |Split(s, '\n')| <= n
    ensures Trim(s, n) == s
  {
  }

  lemma BannerIsShort(site: string)
    requires Free(site, '\n')
    ensures Trim(Banner(site), MAX_OUTPUT_LINES) == Banner(site)
  {
    var text := "*** CONNECTED to " + site + " ***";
    assert Banner(site) == text + ['\n'];
    assert Free(text, '\n');
    SplitLine(text, '\n');
  }

  lemma KeyOutput(v: View, key: Key)
    requires !PressKey(v, key).0.cleaning
    ensures PressKey(v, key).0.output == if key == CtrlL then "" else v.output
  {
    hide Navigate, LeaveNote, Remember;
    NavigateSpares(v, -1);
    NavigateSpares(v, 1);
  }

  lemma OutputStep(v: View, msg: Msg)
    requires !After(v, msg).0.cleaning
    ensures !v.cleaning
    ensures After(v, msg).0.output ==
            match msg
            case Data(bytes) => Trim(v.output + Normalise(bytes), MAX_OUTPUT_LINES)
            case Press(key) => if key == CtrlL then "" else v.output
            case _ => v.output
  {
    hide PressKey, Trim, Normalise, LossNote;
    if msg.Press? && !v.cleaning {
      KeyOutput(v, msg.key);
    }
  }

  // So the buffer is the end of what was shown, from the start of a line on.
  lemma ScrollbackIsASuffix(site: string, msgs: seq<Msg>)
    requires Free(site, '\n') && !Run(site, msgs).cleaning
    ensures var out, shown := Run(site, msgs).output, Shown(site, msgs);
            && |out| <= |shown| && shown[|shown| - |out|..] == out
            && (|out| < |shown| ==> shown[|shown| - |out| - 1] == '\n')
  {
    hide Run, Shown, Trim, Split;
    ScrollbackIsTrimmedOnce(site, msgs);
    TrimKeepsSuffix(Shown(site, msgs), MAX_OUTPUT_LINES);
  }

  // Until cleanup begins, the buffer holds the last lines of everything shown: trimming chunk by
  // chunk is trimming once at the end.
  lemma {:induction false} ScrollbackIsTrimmedOnce(site: string, msgs: seq<Msg>)
    requires Free(site, '\n') && !Run(site, msgs).cleaning
    ensures Run(site, msgs).output == Trim(Shown(site, msgs), 10000)
  {
    if msgs == [] {
      BannerIsShort(site);
      return;
    }
    hide After, Trim, Normalise, Fresh;
    var before, msg := msgs[..|msgs| - 1], msgs[|msgs| - 1];
    OutputStep(Run(site, before), msg);
    ScrollbackIsTrimmedOnce(site, before);
    if msg.Data? {
      TrimConcat(Shown(site, before), Normalise(msg.bytes), MAX_OUTPUT_LINES);
    } else if msg == Press(CtrlL) {
      assert Split("", '\n') == [""];
      TrimShort("", MAX_OUTPUT_LINES);
    }
  }
}
