/**
 The root model of a session as code (internal/tui/model.go:78-208, with what its screens do about
 ownership: PasswordModel.Update, MenuModel.Update, DialingModel.Update and the start of a cleanup).
 `Ownership.Decide` says what one input does to a session and which effect its command has, and
 every step of the ownership system that concerns a session is such an input.
 */
module Sessions {
  import opened Wrappers
  import opened Sites
  import opened Ownership

  datatype State = StatePasswordChange | StateMenu | StateDialing | StateConnected

  class RootModel {
    const sites: seq<Site>
    var state: State
    var alive: bool
    var confirming: bool        // focusIndex of the password screen
    var activeSite: string
    var activeModem: Option<nat>
    var dialingDone: bool
    var connectedSite: string
    var connectedModem: nat
    var cleaning: Option<nat>   // the cleanup command that was issued

    function Viewed(): Session
      reads this
    {
      Session(alive,
              match state
              case StatePasswordChange => Password(confirming)
              case StateMenu => Menu
              case StateDialing => Dialing(dialingDone)
              case StateConnected => Connected(connectedSite, connectedModem, cleaning),
              activeSite)
    }

    // The modem is remembered exactly as long as the session shows it.
    ghost predicate Valid()
      reads this
    {
      activeModem == if state == StateConnected then Some(connectedModem) else None
    }

    constructor (sites: seq<Site>, force: bool)
      ensures Valid() && this.sites == sites
      ensures Viewed() == Session(true, if force then Password(false) else Menu, "")
    {
      this.sites := sites;
      state := if force then StatePasswordChange else StateMenu;
      alive, confirming, activeSite, activeModem, dialingDone := true, false, "", None, false;
      connectedSite, connectedModem, cleaning := "", 0, None;
    }

    method ReturnToMenu()
      modifies this
      ensures Valid() && Viewed() == old(Viewed()).(screen := Menu)
    {
      state := StateMenu;
      activeModem := None;
    }

    method UpdatePasswordChange(input: Input) returns (effect: Effect)
      requires Valid() && state == StatePasswordChange
      modifies this
      ensures Valid() && (Viewed(), effect) == DecideOn(old(Viewed()), sites, 0, input, true)
    {
      effect := NoEffect;
      match input {
        case Got(l) =>
          if l == Submitted(true) {
            state := StateMenu;
          }
        case Typed(Tab) => confirming := !confirming;
        case Typed(Enter(_, accepted)) =>
          if !confirming {
            confirming := true;
          } else {
            effect := Send(Submitted(accepted));
          }
        case Typed(CtrlC) => effect := Send(QuitMsg);
      }
    }

    method UpdateMenu(input: Input) returns (effect: Effect)
      requires Valid() && state == StateMenu
      modifies this
      ensures Valid() && (Viewed(), effect) == DecideOn(old(Viewed()), sites, 0, input, true)
    {
      effect := NoEffect;
      match input {
        case Got(l) =>
          if l.DialRequest? && l.index >= 0 && l.index < |sites| {
            activeSite := sites[l.index].name;
            dialingDone := false;
            state := StateDialing;
            effect := StartDialing(sites[l.index]);
          }
        case Typed(Enter(selected, _)) =>
          if selected.Some? {
            effect := Send(DialRequest(selected.value));
          }
        case Typed(CtrlC) => effect := Send(QuitMsg);
        case Typed(Tab) =>
      }
    }

    // `ready`: the session log could be created.
    method UpdateDialing(input: Input, ready: bool) returns (effect: Effect)
      requires Valid() && state == StateDialing
      modifies this
      ensures Valid() && (Viewed(), effect) == DecideOn(old(Viewed()), sites, 0, input, ready)
    {
      effect := NoEffect;
      match input {
        case Got(l) =>
          if IsConnect(l) {
            activeModem := Some(l.handle);
            state := StateConnected;
            if !ready {
              effect := GiveUp(l.handle);
              ReturnToMenu();
              return;
            }
            connectedSite, connectedModem, cleaning := activeSite, l.handle, None;
          } else if l.Answer? || l == Submitted(false) {
            dialingDone := true;
          }
        case Typed(CtrlC) => ReturnToMenu();
        case Typed(Enter(_, _)) =>
          if dialingDone {
            ReturnToMenu();
          }
        case Typed(Tab) =>
      }
    }

    // `newName` names the cleanup command if one is issued.
    method UpdateConnected(input: Input, newName: nat) returns (effect: Effect)
      requires Valid() && state == StateConnected
      modifies this
      ensures Valid() && (Viewed(), effect) == DecideOn(old(Viewed()), sites, newName, input, true)
    {
      effect := NoEffect;
      match input {
        case Got(TerminalDone) => ReturnToMenu();
        case Got(CleanupDone) => effect := Send(TerminalDone);
        case Got(Disconnect) => effect := StartCleanup(newName);
        case Typed(CtrlC) => effect := StartCleanup(newName);
        case _ =>
      }
    }

    method StartCleanup(newName: nat) returns (effect: Effect)
      requires Valid() && state == StateConnected
      modifies this
      ensures Valid()
      ensures if old(cleaning).Some? then effect == NoEffect && Viewed() == old(Viewed())
              else effect == IssueCleanup(connectedModem)
                   && Viewed() == old(Viewed()).(screen := old(Viewed()).screen.(cleaning := Some(newName)))
    {
      if cleaning.Some? {
        return NoEffect;
      }
      cleaning := Some(newName);
      return IssueCleanup(connectedModem);
    }

    method Update(input: Input, ready: bool, newName: nat) returns (effect: Effect)
      requires Valid()
      modifies this
      ensures Valid() && (Viewed(), effect) == DecideOn(old(Viewed()), sites, newName, input, ready)
    {
      match state {
        case StatePasswordChange => effect := UpdatePasswordChange(input);
        case StateMenu => effect := UpdateMenu(input);
        case StateDialing => effect := UpdateDialing(input, ready);
        case StateConnected => effect := UpdateConnected(input, newName);
      }
    }

    // The event loop around Update: it ends the program at a quit message, whatever the screen.
    method Take(input: Input, ready: bool, newName: nat) returns (effect: Effect)
      requires Valid()
      modifies this
      ensures Valid() && (Viewed(), effect) == Decide(old(Viewed()), sites, newName, input, ready)
    {
      if input == Got(QuitMsg) {
        alive := false;
        return NoEffect;
      }
      effect := Update(input, ready, newName);
    }
  }

  // Giving up is two steps of the ownership system, which nobody can do but the session: the
  // close, then the release; and then the session is what Decide says.
  lemma GivingUpIsTwoSteps(s: Sys, i: nat, x: Session, handle: nat)
    requires !x.screen.Aborting?
    ensures var s1 := Perform(s, i, x, GiveUp(handle));
            && Apply(s1, Abort(i)).Some?
            && var s2 := Apply(s1, Abort(i)).value;
               && s2.open == s.open - {handle} && s2.lock == s.lock
               && Apply(s2, Abort(i)) == Some(Put(s, i, x.(screen := Menu)).(open := s.open - {handle}, lock := ""))
  {
    var s1 := Perform(s, i, x, GiveUp(handle));
    var s2 := Apply(s1, Abort(i)).value;
    var s3 := Apply(s2, Abort(i)).value;
    assert s3.sessions == Put(s, i, x.(screen := Menu)).sessions;
  }
}
