/**
 The connected session (internal/tui/connected.go): line editor with history, batch mode, the
 ~. escape, and the commands each message makes it issue.  `View` is the state as a value and
 `After` what one message does to it; class ConnectedModel is the code, proved against them.
 */
module Console {
  import opened Text
  import opened Scrollback

  const MAX_HISTORY: nat := 100
  const MAX_OUTPUT_LINES: nat := 10000

  datatype Key =
    | CtrlC | CtrlB | CtrlD | Esc | CtrlU | CtrlL | Up | Down | Backspace | Enter
    | Other(name: string)

  datatype Msg =
    | Press(key: Key)
    | Data(bytes: string)
    | Disconnected(reason: string)   // the reason shown on the screen
    | WakeTick
    | CleanupDone
    | Ignored

  datatype Cmd =
    | SendLine(line: string)
    | SendBatch(lines: seq<string>)
    | Cleanup(carrierLost: bool)
    | AwaitData
    | SendWake
    | ScheduleWake
    | ReportDone

  datatype View = View(
    input: string, history: seq<string>, historyIdx: int, historyTmp: string,
    batchMode: bool, batchLines: seq<string>,
    prevWasEnter: bool, carrierLost: bool, cleaning: bool, gotData: bool,
    output: string)

  function Banner(siteName: string): string {
    "*** CONNECTED to " + siteName + " ***\n"
  }

  function LeaveNote(): string {
    "\n*** DISCONNECTED ***\n"
  }

  function LossNote(reason: string): string {
    "\n*** " + reason + " ***\n"
  }

  function Fresh(siteName: string): View {
    View("", [], -1, "", false, [], false, false, false, false, Banner(siteName))
  }

  predicate Printable(c: char) {
    ' ' <= c <= '~'
  }

  // navigateHistory: -1 is up, 1 is down.
  function Navigate(v: View, dir: int): View {
    var n := |v.history|;
    if n == 0 || (v.historyIdx == -1 && dir > 0) then v
    else
      var idx := if v.historyIdx == -1 then n - 1 else v.historyIdx + dir;
      var typed := if v.historyIdx == -1 then v.input else v.historyTmp;
      if idx < 0 then v.(historyIdx := 0, historyTmp := typed)
      else if idx >= n then v.(input := typed, historyIdx := -1, historyTmp := typed)
      else v.(input := v.history[idx], historyIdx := idx, historyTmp := typed)
  }

  function Remember(history: seq<string>, line: string): seq<string> {
    if line == "" || (|history| > 0 && history[|history| - 1] == line) then history
    else Last(history + [line], MAX_HISTORY)
  }

  predicate Escapes(v: View) {
    v.prevWasEnter && v.input == "~."
  }

  function Leave(v: View): View {
    v.(cleaning := true, output := v.output + LeaveNote())
  }

  function SubmitLine(v: View): (View, seq<Cmd>) {
    if Escapes(v) then (Leave(v), [Cleanup(v.carrierLost)])
    else if v.batchMode then
      (v.(batchLines := v.batchLines + [v.input], input := "", prevWasEnter := true), [])
    else
      (v.(history := Remember(v.history, v.input), input := "", historyIdx := -1, historyTmp := "",
          prevWasEnter := v.input == ""),
       [SendLine(v.input)])
  }

  function PressKey(v: View, key: Key): (View, seq<Cmd>) {
    match key
    case CtrlC => (Leave(v), [Cleanup(v.carrierLost)])
    case CtrlB =>
      (v.(batchMode := !v.batchMode, batchLines := if v.batchMode then [] else v.batchLines), [])
    case CtrlD =>
      if v.batchMode && |v.batchLines| > 0 then
        (v.(batchMode := false, batchLines := []), [SendBatch(v.batchLines)])
      else (v, [])
    case Esc => (if v.batchMode then v.(batchMode := false, batchLines := []) else v, [])
    case CtrlU => (v.(input := ""), [])
    case CtrlL => (v.(output := ""), [])
    case Up => (Navigate(v, -1), [])
    case Down => (Navigate(v, 1), [])
    case Backspace => (if |v.input| > 0 then v.(input := v.input[..|v.input| - 1]) else v, [])
    case Enter => SubmitLine(v)
    case Other(name) =>
      (if |name| == 1 && Printable(name[0]) then v.(input := v.input + [name[0]]) else v, [])
  }

  // What one message does to the session, and the commands it issues.
  function After(v: View, msg: Msg): (View, seq<Cmd>) {
    if v.cleaning then (v, if msg.CleanupDone? then [ReportDone] else [])
    else
      match msg
      case Press(key) => PressKey(v, key)
      case Data(bytes) =>
        (v.(gotData := true, output := Trim(v.output + Normalise(bytes), MAX_OUTPUT_LINES)), [AwaitData])
      case Disconnected(reason) =>
        (v.(carrierLost := true, cleaning := true, output := v.output + LossNote(reason)),
         [Cleanup(true)])
      case WakeTick => (v, if v.gotData then [] else [SendWake, ScheduleWake])
      case CleanupDone => (v, [ReportDone])
      case Ignored => (v, [])
  }

  // ------------------------------------------------------------------ the code

  class ConnectedModel {
    var input: string
    var history: seq<string>
    var historyIdx: int
    var historyTmp: string
    var batchMode: bool
    var batchLines: seq<string>
    var prevWasEnter: bool
    var carrierLost: bool
    var cleaning: bool
    var gotData: bool
    var outputBuf: string

    function Viewed(): View
      reads this
    {
      View(input, history, historyIdx, historyTmp, batchMode, batchLines,
           prevWasEnter, carrierLost, cleaning, gotData, outputBuf)
    }

    ghost predicate Valid()
      reads this
    {
      -1 <= historyIdx < |history|
    }

    constructor (siteName: string)
      ensures Viewed() == Fresh(siteName) && Valid()
    {
      input, history, historyIdx, historyTmp := "", [], -1, "";
      batchMode, batchLines := false, [];
      prevWasEnter, carrierLost, cleaning, gotData := false, false, false, false;
      outputBuf := Banner(siteName);
    }

    method NavigateHistory(dir: int)
      requires Valid() && (dir == -1 || dir == 1)
      modifies this
      ensures Valid() && Viewed() == Navigate(old(Viewed()), dir) && history == old(history)
    {
      if |history| == 0 {
        return;
      }
      if historyIdx == -1 {
        if dir > 0 {
          return;
        }
        historyTmp := input;
        historyIdx := |history| - 1;
      } else {
        historyIdx := historyIdx + dir;
      }
      if historyIdx < 0 {
        historyIdx := 0;
        return;
      }
      if historyIdx >= |history| {
        input := historyTmp;
        historyIdx := -1;
        return;
      }
      input := history[historyIdx];
    }

    method TrimOutput()
      modifies this
      ensures Viewed() == old(Viewed()).(output := Trim(old(outputBuf), MAX_OUTPUT_LINES))
    {
      var lines := Split(outputBuf, '\n');
      if |lines| > MAX_OUTPUT_LINES {
        lines := lines[|lines| - MAX_OUTPUT_LINES..];
        outputBuf := Join(lines, '\n');
      }
    }

    method HandleEnter() returns (cmds: seq<Cmd>)
      requires Valid() && |history| <= MAX_HISTORY
      modifies this
      ensures Valid() && |history| <= MAX_HISTORY
      ensures (Viewed(), cmds) == SubmitLine(old(Viewed()))
    {
      hide LeaveNote;
      var line := input;
      if prevWasEnter && line == "~." {
        cleaning := true;
        outputBuf := outputBuf + LeaveNote();
        return [Cleanup(carrierLost)];
      }
      if batchMode {
        batchLines := batchLines + [line];
        input := "";
        prevWasEnter := true;
        return [];
      }
      if line != "" {
        if |history| == 0 || history[|history| - 1] != line {
          history := history + [line];
          if |history| > MAX_HISTORY {
            history := history[1..];
          }
        }
      }
      assert history == Remember(old(history), line);
      hide Remember;
      input := "";
      historyIdx := -1;
      historyTmp := "";
      prevWasEnter := line == "";
      return [SendLine(line)];
    }

    method HandleKey(key: Key) returns (cmds: seq<Cmd>)
      requires Valid() && |history| <= MAX_HISTORY
      modifies this
      ensures Valid() && |history| <= MAX_HISTORY
      ensures (Viewed(), cmds) == PressKey(old(Viewed()), key)
    {
      hide Navigate, SubmitLine, LeaveNote;
      cmds := [];
      match key {
        case CtrlC =>
          cleaning := true;
          outputBuf := outputBuf + LeaveNote();
          cmds := [Cleanup(carrierLost)];
        case CtrlB =>
          batchMode := !batchMode;
          if !batchMode {
            batchLines := [];
          }
        case CtrlD =>
          if batchMode && |batchLines| > 0 {
            cmds := [SendBatch(batchLines)];
            batchMode := false;
            batchLines := [];
          }
        case Esc =>
          if batchMode {
            batchMode := false;
            batchLines := [];
          }
        case CtrlU => input := "";
        case CtrlL => outputBuf := "";
        case Up => NavigateHistory(-1);
        case Down => NavigateHistory(1);
        case Backspace =>
          if |input| > 0 {
            input := input[..|input| - 1];
          }
        case Enter => cmds := HandleEnter();
        case Other(name) =>
          if |name| == 1 && ' ' <= name[0] <= '~' {
            input := input + [name[0]];
          }
      }
    }

    method Update(msg: Msg) returns (cmds: seq<Cmd>)
      requires Valid() && |history| <= MAX_HISTORY
      modifies this
      ensures Valid() && |history| <= MAX_HISTORY
      ensures (Viewed(), cmds) == After(old(Viewed()), msg)
    {
      hide PressKey, LossNote, Trim, ReplaceCr, ReplaceCrLf;
      if cleaning {
        if msg.CleanupDone? {
          return [ReportDone];
        }
        return [];
      }
      match msg {
        case Press(key) => cmds := HandleKey(key);
        case Data(bytes) =>
          gotData := true;
          var cleaned := ReplaceCrLf(bytes);
          cleaned := ReplaceCr(cleaned);
          outputBuf := outputBuf + cleaned;
          TrimOutput();
          cmds := [AwaitData];
        case Disconnected(reason) =>
          carrierLost := true;
          cleaning := true;
          outputBuf := outputBuf + LossNote(reason);
          cmds := [Cleanup(true)];
        case WakeTick => cmds := if !gotData then [SendWake, ScheduleWake] else [];
        case CleanupDone => cmds := [ReportDone];
        case Ignored => cmds := [];
      }
    }
  }
}
