/**
 The connected session twice: as the console of internal/tui/connected.go, and as the connected
 screen of the ownership system.  What the console does about the modem is what the screen does.
 */
module ConsoleSession {
  import Console
  import ConsoleRuns
  import Ownership
  import Sites
  import Wrappers

  // What a message to the console is to the screen; keys that concern the line editor only are
  // all alike.
  function InputOf(v: Console.View, msg: Console.Msg): Ownership.Input {
    match msg
    case Disconnected(_) => Ownership.Got(Ownership.Disconnect)
    case CleanupDone => Ownership.Got(Ownership.CleanupDone)
    case Press(key) =>
      if key == Console.CtrlC || (key == Console.Enter && Console.Escapes(v)) then Ownership.Typed(Ownership.CtrlC)
      else Ownership.Typed(Ownership.Tab)
    case _ => Ownership.Typed(Ownership.Tab)
  }

  predicate Shows(v: Console.View, x: Ownership.Session) {
    x.screen.Connected? && (v.cleaning <==> x.screen.cleaning.Some?)
  }

  // Whether the commands have a cleanup, and whether they have the final message.

  ghost predicate HasCleanup(cmds: seq<Console.Cmd>) {
    exists lost :: Console.Cleanup(lost) in cmds
  }

  predicate HasReport(cmds: seq<Console.Cmd>) {
    Console.ReportDone in cmds
  }

  ghost predicate Agree(v: Console.View, x: Ownership.Session, msg: Console.Msg, sites: seq<Sites.Site>, n: nat) {
    var (w, cmds) := Console.After(v, msg);
    var (y, e) := Ownership.Decide(x, sites, n, InputOf(v, msg), true);
    && Shows(w, y) && y.alive == x.alive && y.screen.handle == x.screen.handle
    && (HasCleanup(cmds) <==> e == Ownership.IssueCleanup(x.screen.handle))
    && (HasReport(cmds) <==> e == Ownership.Send(Ownership.TerminalDone))
    && (e.NoEffect? <==> !HasCleanup(cmds) && !HasReport(cmds))
  }

  lemma KeyAgrees(v: Console.View, x: Ownership.Session, key: Console.Key, sites: seq<Sites.Site>, n: nat)
    requires Shows(v, x) && !v.cleaning
    ensures Agree(v, x, Console.Press(key), sites, n)
  {
    ConsoleRuns.KeyCleanup(v, key);
    ConsoleRuns.KeyLeaves(v, key);
    var (w, cmds) := Console.PressKey(v, key);
    hide Console.PressKey;
    if w.cleaning {
      assert Console.Cleanup(v.carrierLost) in cmds;
    }
  }

  // The console issues its cleanup, and reports its end, exactly when the screen does.
  lemma ConsoleAgrees(v: Console.View, x: Ownership.Session, msg: Console.Msg, sites: seq<Sites.Site>, n: nat)
    requires Shows(v, x)
    ensures Agree(v, x, msg, sites, n)
  {
    if msg.Press? && !v.cleaning {
      KeyAgrees(v, x, msg.key, sites, n);
      return;
    }
    hide Console.PressKey, Console.LossNote;
    if msg.Disconnected? && !v.cleaning {
      assert Console.Cleanup(true) in Console.After(v, msg).1;
    }
  }

  // The screen over the messages the console has taken; the cleanup, if any, has the name n.
  function Follow(site: string, handle: nat, msgs: seq<Console.Msg>, sites: seq<Sites.Site>, n: nat)
    : Ownership.Session
  {
    if msgs == [] then Ownership.Session(true, Ownership.Connected(site, handle, Wrappers.None), site)
    else
      var before := msgs[..|msgs| - 1];
      Ownership.Decide(Follow(site, handle, before, sites, n), sites, n,
                       InputOf(ConsoleRuns.Run(site, before), msgs[|msgs| - 1]), true).0
  }

  // So the two are cleaning at the same time in every run.
  lemma {:induction false} ConsoleFollowsScreen(
    site: string, handle: nat, msgs: seq<Console.Msg>, sites: seq<Sites.Site>, n: nat)
    ensures Shows(ConsoleRuns.Run(site, msgs), Follow(site, handle, msgs, sites, n))
    ensures Follow(site, handle, msgs, sites, n).alive && Follow(site, handle, msgs, sites, n).screen.handle == handle
  {
    if msgs != [] {
      hide Console.After, Ownership.Decide;
      var before := msgs[..|msgs| - 1];
      ConsoleFollowsScreen(site, handle, before, sites, n);
      ConsoleAgrees(ConsoleRuns.Run(site, before), Follow(site, handle, before, sites, n), msgs[|msgs| - 1], sites, n);
    }
  }
}
