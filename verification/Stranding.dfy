/**
 When the lock is lost for good: exactly when its token is stranded, that is, when nobody is left
 who will ever act on it.  Otherwise some continuation of the run frees the lock.
 */
module Stranding {
  import opened Wrappers
  import opened DialProtocol
  import opened Sites
  import opened Ownership
  import opened Grounds
  import opened Cleanups
  import opened Tokens
  import opened Handles
  import opened Exclusion

  predicate Dead(s: Sys, i: nat) {
    i in s.sessions && !s.sessions[i].alive
  }

  // A CONNECT result that was ignored because the dial had been abandoned; one on its way to a
  // killed session, or about to be sent to one; and a connected session that was killed.
  ghost predicate Stranded(s: Sys, t: Token) {
    && IsToken(s, t)
    && match t
       case OfLost(_) => true
       case OfMail(m) => Dead(s, s.mail[m].to)
       case OfDial(d) => s.dials[d].pc.Online? && Dead(s, s.dials[d].owner)
       case OfSession(i) => Dead(s, i) && s.sessions[i].screen.Connected?
       case OfCleanup(_) => false
  }

  // ------------------------------------------------------------------ once stranded, always stranded

  // What a step leaves alone: messages while they last, dials it does not run, and dead sessions.
  ghost predicate Spares(s: Sys, s': Sys) {
    && (forall m :: m in s.mail && m in s'.mail ==> s'.mail[m] == s.mail[m])
    && (forall i :: Dead(s, i) ==> Dead(s', i))
    && (forall i :: Dead(s, i) && !s.sessions[i].screen.Aborting? ==> s'.sessions[i] == s.sessions[i])
  }

  lemma SparesPut(s: Sys, i: nat, x: Session)
    requires !Dead(s, i) || (!x.alive && (x == s.sessions[i] || s.sessions[i].screen.Aborting?))
    ensures Spares(s, Put(s, i, x))
  {
  }

  lemma SparesElsewhere(s: Sys, s': Sys)
    requires s'.mail.Keys <= s.mail.Keys && s'.sessions == s.sessions
    requires forall m :: m in s'.mail ==> s'.mail[m] == s.mail[m]
    ensures Spares(s, s')
  {
  }

  lemma TakeSpares(s: Sys, i: nat, input: Input, ready: bool)
    requires FreshNames(s) && Running(s, i)
    ensures Spares(s, Take(s, i, input, ready)) && Take(s, i, input, ready).mail.Keys >= s.mail.Keys
  {
    TakeShape(s, i, input, ready);
    hide Take;
  }

  lemma ReceiveSpares(s: Sys, m: nat, ok: bool)
    requires FreshNames(s) && m in s.mail && Running(s, s.mail[m].to)
    ensures Spares(s, Receive(s, m, ok))
  {
    hide FreshNames, Spares, Take;
    SparesElsewhere(s, Unmail(s, m));
    if IsConnect(s.mail[m].letter) && !s.sessions[s.mail[m].to].screen.Dialing? {
      SparesElsewhere(s, Receive(s, m, ok));
    } else {
      var i := s.mail[m].to;
      UnmailFresh(s, m);
      TakeSpares(Unmail(s, m), i, Got(s.mail[m].letter), ok);
      ReceiveIsNew(s, m, ok);
      SparesAcross(s, Unmail(s, m), Receive(s, m, ok), m);
    }
  }

  lemma ReceiveIsNew(s: Sys, m: nat, ok: bool)
    requires FreshNames(s) && m in s.mail && s.mail[m].to in s.sessions
    ensures m !in Receive(s, m, ok).mail
  {
    if !(IsConnect(s.mail[m].letter) && !s.sessions[s.mail[m].to].screen.Dialing?) {
      TakeShape(Unmail(s, m), s.mail[m].to, Got(s.mail[m].letter), ok);
      hide Take;
    }
  }

  lemma SparesAcross(s: Sys, s1: Sys, s2: Sys, m: nat)
    requires Spares(s, s1) && Spares(s1, s2) && s1.mail == s.mail - {m} && m !in s2.mail
    ensures Spares(s, s2)
  {
  }

  lemma SharedSpares(s: Sys, l: Label)
    requires FreshNames(s) && Apply(s, l).Some? && (l.Go? || l.Clean? || l.Disrupt?)
    ensures Spares(s, Apply(s, l).value)
  {
    hide Apply;
    match l {
      case Go(d, e) => GoShape(s, d, e);
      case Clean(c) => CleanShape(s, c);
      case Disrupt(_) => SmallShape(s, l);
    }
  }

  lemma AbortSpares(s: Sys, i: nat)
    requires Apply(s, Abort(i)).Some?
    ensures Spares(s, Apply(s, Abort(i)).value)
  {
    AbortShape(s, i);
    hide Apply;
  }

  lemma LoginSpares(s: Sys, force: bool)
    requires FreshNames(s)
    ensures Spares(s, Apply(s, Login(force)).value)
  {
  }

  lemma StepSpares(s: Sys, l: Label)
    requires FreshNames(s) && Apply(s, l).Some?
    ensures Spares(s, Apply(s, l).value)
  {
    hide FreshNames, Spares, Take, Receive, GoEffect, CleanEffect, AbortEffect, Step;
    match l {
      case Press(i, key) => TakeSpares(s, i, Typed(key), true);
      case Deliver(m, ok) => ReceiveSpares(s, m, ok);
      case Login(force) => LoginSpares(s, force);
      case Kill(i) => SparesPut(s, i, s.sessions[i].(alive := false));
      case Abort(i) => AbortSpares(s, i);
      case _ => SharedSpares(s, l);
    }
  }

  lemma GoDials(s: Sys, l: Label, d: nat)
    requires FreshNames(s) && Apply(s, l).Some? && d in s.dials && l.Go? && l.d != d
    ensures d in Apply(s, l).value.dials && Apply(s, l).value.dials[d] == s.dials[d]
  {
    GoShape(s, l.d, l.e);
    hide Apply;
  }

  lemma TakeDials(s: Sys, i: nat, input: Input, ready: bool, d: nat)
    requires FreshNames(s) && i in s.sessions && d in s.dials
    ensures d in Take(s, i, input, ready).dials && Take(s, i, input, ready).dials[d] == s.dials[d]
  {
    TakeShape(s, i, input, ready);
    hide Take;
  }

  lemma DialsStay(s: Sys, l: Label, d: nat)
    requires FreshNames(s) && Apply(s, l).Some? && d in s.dials && !(l.Go? && l.d == d)
    ensures d in Apply(s, l).value.dials && Apply(s, l).value.dials[d] == s.dials[d]
  {
    hide FreshNames, Take, Step, GoEffect;
    match l {
      case Press(i, key) => TakeDials(s, i, Typed(key), true, d);
      case Deliver(m, ok) =>
        if !(IsConnect(s.mail[m].letter) && !s.sessions[s.mail[m].to].screen.Dialing?) {
          UnmailFresh(s, m);
          TakeDials(Unmail(s, m), s.mail[m].to, Got(s.mail[m].letter), ok, d);
        }
      case Go(_, _) => GoDials(s, l, d);
      case _ =>
    }
  }

  lemma OnlineReturns(cfg: bool, e: Event)
    requires Step(cfg, Online, e).Some?
    ensures e == Return(HANDED_OVER)
  {
  }

  // Not touched by a step.
  predicate Aside(f: Flow, t: Token) {
    match f
    case Moves(a, b) => a != t && b != t
    case Drops(u) => u != t
    case Grabs(u) => u != t
    case Yields(u) => u != t
    case _ => true
  }

  lemma LostAside(s: Sys, l: Label, m: nat)
    requires FreshNames(s) && m in s.lost
    ensures Aside(FlowOf(s, l), OfLost(m))
  {
    hide Step;
  }

  lemma MailAside(s: Sys, l: Label, m: nat)
    requires FreshNames(s) && m in s.mail && Dead(s, s.mail[m].to) && Apply(s, l).Some?
    ensures Aside(FlowOf(s, l), OfMail(m)) && m in Apply(s, l).value.mail
  {
    MailStays(s, l, m);
    hide Take, Receive, GoEffect, CleanEffect, AbortEffect, Step;
  }

  lemma MailStays(s: Sys, l: Label, m: nat)
    requires FreshNames(s) && m in s.mail && Apply(s, l).Some? && !(l.Deliver? && l.m == m)
    ensures m in Apply(s, l).value.mail
  {
    hide FreshNames, Take, Receive, GoEffect, CleanEffect, AbortEffect, Step, Put, Post;
    match l {
      case Press(i, key) => TakeMail(s, i, Typed(key), true, m);
      case Deliver(n, ok) => ReceiveMail(s, n, ok, m);
      case Go(d, e) => GoShape(s, d, e);
      case Clean(c) => CleanShape(s, c);
      case Abort(i) => AbortShape(s, i);
      case _ => SmallShape(s, l);
    }
  }

  lemma TakeMail(s: Sys, i: nat, input: Input, ready: bool, m: nat)
    requires i in s.sessions && m in s.mail
    ensures m in Take(s, i, input, ready).mail
  {
    TakeShape(s, i, input, ready);
    hide Take;
  }

  lemma ReceiveMail(s: Sys, n: nat, ok: bool, m: nat)
    requires n in s.mail && s.mail[n].to in s.sessions && m in s.mail && m != n
    ensures m in Receive(s, n, ok).mail
  {
    hide Take;
    if !(IsConnect(s.mail[n].letter) && !s.sessions[s.mail[n].to].screen.Dialing?) {
      TakeMail(Unmail(s, n), s.mail[n].to, Got(s.mail[n].letter), ok, m);
    }
  }

  lemma SessionAside(s: Sys, l: Label, i: nat)
    requires Dead(s, i) && s.sessions[i].screen.Connected? && Apply(s, l).Some?
    ensures Aside(FlowOf(s, l), OfSession(i))
  {
    hide Take, Receive, Step, GoEffect;
  }

  lemma DialAside(s: Sys, l: Label, d: nat)
    requires d in s.dials && s.dials[d].pc.Online? && Apply(s, l).Some?
    ensures if l.Go? && l.d == d then FlowOf(s, l) == Moves(OfDial(d), OfMail(s.next)) && l.e == Return(HANDED_OVER)
            else Aside(FlowOf(s, l), OfDial(d))
  {
    hide Take, Receive, GoEffect;
    if l.Go? && l.d == d {
      OnlineReturns(s.dials[d].cfg, l.e);
    } else {
      hide Step;
    }
  }

  lemma AsideHolds(s: Sys, s': Sys, f: Flow, t: Token)
    requires Flows(s, s', f) && Aside(f, t) && Hold(s, t).With?
    ensures Hold(s', t) == Hold(s, t) && Heir(f, t) == t
  {
    hide Hold;
  }

  lemma StrandedAside(s: Sys, s': Sys, t: Token)
    requires Stranded(s, t) && Hold(s', t) == Hold(s, t) && Spares(s, s')
    requires t.OfMail? ==> t.m in s'.mail
    requires t.OfDial? ==> t.d in s'.dials && s'.dials[t.d] == s.dials[t.d]
    ensures Stranded(s', t)
  {
    match t {
      case OfMail(m) => assert s'.mail[m] == s.mail[m] && Dead(s', s.mail[m].to);
      case OfSession(i) => assert Dead(s, i) && s'.sessions[i] == s.sessions[i];
      case OfDial(d) => assert Dead(s', s.dials[d].owner);
      case OfLost(_) =>
    }
  }

  // The token stays where it is, except that a dial hands CONNECT to its dead owner.
  lemma StrandedStep(s: Sys, l: Label, t: Token)
    requires Stranded(s, t) && Orderly(s) && FreshNames(s) && SaneDials(s) && Apply(s, l).Some?
    ensures Stranded(Apply(s, l).value, Heir(FlowOf(s, l), t))
  {
    StepFlows(s, l);
    StepSpares(s, l);
    StrandedHolds(s, t);
    hide Orderly, FreshNames, SaneDials, Apply, FlowOf, Flows, Spares, Hold;
    match t {
      case OfLost(m) => LostAside(s, l, m);
      case OfMail(m) => MailAside(s, l, m);
      case OfSession(i) => SessionAside(s, l, i);
      case OfDial(d) =>
        DialAside(s, l, d);
        if l.Go? && l.d == d {
          HandedToDead(s, d);
          return;
        }
        DialsStay(s, l, d);
    }
    AsideHolds(s, Apply(s, l).value, FlowOf(s, l), t);
    StrandedAside(s, Apply(s, l).value, t);
  }

  lemma HandedToDead(s: Sys, d: nat)
    requires d in s.dials && s.dials[d].pc.Online? && Dead(s, s.dials[d].owner)
    ensures var s' := Apply(s, Go(d, Return(HANDED_OVER)));
            s'.Some? && Stranded(s'.value, OfMail(s.next))
  {
  }

  // After that, in every continuation of the run, the lock stays taken.
  lemma StrandedForever(sites: seq<Site>, run: seq<Label>, more: seq<Label>, t: Token) returns (t': Token)
    requires AllNamed(sites) && Exec(sites, run).Some? && Stranded(Exec(sites, run).value, t)
    requires Exec(sites, run + more).Some?
    ensures Stranded(Exec(sites, run + more).value, t')
    ensures Exec(sites, run + more).value.lock == Exec(sites, run).value.lock != ""
  {
    if more == [] {
      var o := RunsKeepOneOwner(sites, run);
      assert run + more == run;
      return t;
    }
    hide Apply, FlowOf, Stranded, Grounded, Orderly;
    var less, l := more[..|more| - 1], more[|more| - 1];
    assert (run + more)[..|run + more| - 1] == run + less;
    t' := StrandedForever(sites, run, less, t);
    var s := Exec(sites, run + less).value;
    var o := RunsKeepOneOwner(sites, run + less);
    StrandedKeepsLock(s, l, sites, o, t');
    t' := Heir(FlowOf(s, l), t');
  }

  lemma StrandedKeepsLock(s: Sys, l: Label, sites: seq<Site>, o: Option<Token>, t: Token)
    requires Governed(s, sites, o) && Stranded(s, t) && Apply(s, l).Some?
    ensures Stranded(Apply(s, l).value, Heir(FlowOf(s, l), t))
    ensures Apply(s, l).value.lock == s.lock
  {
    StrandedStep(s, l, t);
    StepFlows(s, l);
    StrandedHolds(s, t);
    hide Apply, FlowOf, Orderly, FreshNames, SaneDials, Addressed, Flows, Stranded, Hold;
    LockStays(s, Apply(s, l).value, FlowOf(s, l), o, t);
  }

  lemma LockStays(s: Sys, s': Sys, f: Flow, o: Option<Token>, t: Token)
    requires OneOwner(s, o) && Flows(s, s', f) && Hold(s, t).With?
    ensures s'.lock == s.lock
  {
    hide Hold;
    assert IsToken(s, t);
    assert f.Drops? ==> IsToken(s, f.t);
  }

  lemma StrandedHolds(s: Sys, t: Token)
    requires Stranded(s, t)
    ensures Hold(s, t).With?
  {
  }

  // ------------------------------------------------------------------ otherwise there is a way

  // What a continuation may achieve: the lock is free, or a handle is closed.
  datatype Goal = Unlocked | Closed(handle: nat)

  predicate Met(s: Sys, goal: Goal) {
    match goal
    case Unlocked => s.lock == ""
    case Closed(h) => h !in s.open
  }

  ghost predicate Leads(s: Sys, more: seq<Label>, goal: Goal)
    decreases |more|
  {
    if more == [] then Met(s, goal)
    else Apply(s, more[0]).Some? && Leads(Apply(s, more[0]).value, more[1..], goal)
  }

  lemma LeadsExec(sites: seq<Site>, run: seq<Label>, more: seq<Label>, goal: Goal)
    requires Exec(sites, run).Some? && Leads(Exec(sites, run).value, more, goal)
    ensures Exec(sites, run + more).Some? && Met(Exec(sites, run + more).value, goal)
    decreases |more|
  {
    hide Apply, Met;
    if more == [] {
      assert run + more == run;
    } else {
      ExecSnoc(sites, run, more[0]);
      LeadsExec(sites, run + [more[0]], more[1..], goal);
      assert run + [more[0]] + more[1..] == run + more;
    }
  }

  lemma First(s: Sys, l: Label, s': Sys, more: seq<Label>, goal: Goal) returns (all: seq<Label>)
    requires Apply(s, l) == Some(s') && Leads(s', more, goal)
    ensures Leads(s, all, goal)
  {
    all := [l] + more;
    assert all[1..] == more;
  }

  lemma There(s: Sys, goal: Goal) returns (more: seq<Label>)
    requires Met(s, goal)
    ensures Leads(s, more, goal)
  {
    more := [];
  }

  // The goals a token with this hold can be driven to.
  predicate Serves(held: Held, goal: Goal) {
    match goal
    case Unlocked => held != Nothing
    case Closed(h) => held == With(h)
  }

  lemma CleanupLeads(s: Sys, c: nat, goal: Goal) returns (more: seq<Label>)
    requires c in s.cleanups && Serves(HeldByCleanup(s.cleanups[c]), goal)
    ensures Leads(s, more, goal)
    decreases s.cleanups[c].phase.Queued?
  {
    hide Leads;
    var s' := Apply(s, Clean(c)).value;
    if goal.Unlocked? && s.cleanups[c].phase.Queued? {
      more := CleanupLeads(s', c, goal);
    } else {
      more := There(s', goal);
    }
    more := First(s, Clean(c), s', more, goal);
  }

  lemma ConnectedLeads(s: Sys, i: nat, goal: Goal) returns (more: seq<Label>)
    requires i in s.sessions && s.sessions[i].alive && s.sessions[i].screen.Connected?
    requires Serves(HeldBySession(s.sessions[i].screen), goal)
    ensures Leads(s, more, goal)
  {
    hide Leads;
    var s' := Apply(s, Press(i, CtrlC)).value;
    more := CleanupLeads(s', s.next, goal);
    more := First(s, Press(i, CtrlC), s', more, goal);
  }

  lemma AbortingLeads(s: Sys, i: nat, goal: Goal) returns (more: seq<Label>)
    requires i in s.sessions && s.sessions[i].screen.Aborting?
    requires Serves(HeldBySession(s.sessions[i].screen), goal)
    ensures Leads(s, more, goal)
    decreases !s.sessions[i].screen.closed
  {
    hide Leads;
    var s' := Apply(s, Abort(i)).value;
    if goal.Unlocked? && !s.sessions[i].screen.closed {
      more := AbortingLeads(s', i, goal);
    } else {
      more := There(s', goal);
    }
    more := First(s, Abort(i), s', more, goal);
  }

  // ------------------------------------------------------------------ a CONNECT on its way to a live session

  // Whatever screen the session shows, it can come to be dialing and take the CONNECT.

  ghost predicate OnItsWay(s: Sys, m: nat, goal: Goal) {
    && m in s.mail && m < s.next && IsConnect(s.mail[m].letter) && s.sites != []
    && s.mail[m].to in s.sessions && s.sessions[s.mail[m].to].alive
    && Serves(With(s.mail[m].letter.handle), goal)
  }

  function Receiver(s: Sys, m: nat): Session
    requires m in s.mail && s.mail[m].to in s.sessions
  {
    s.sessions[s.mail[m].to]
  }

  lemma DialingLeads(s: Sys, m: nat, goal: Goal) returns (more: seq<Label>)
    requires OnItsWay(s, m, goal) && Receiver(s, m).screen.Dialing?
    ensures Leads(s, more, goal)
  {
    hide Leads;
    var s' := Apply(s, Deliver(m, true)).value;
    more := ConnectedLeads(s', s.mail[m].to, goal);
    more := First(s, Deliver(m, true), s', more, goal);
  }

  lemma Redial(s: Sys, m: nat, goal: Goal) returns (s1: Sys, s2: Sys)
    requires OnItsWay(s, m, goal) && Receiver(s, m).screen.Menu?
    ensures Apply(s, Press(s.mail[m].to, Enter(Some(0), true))) == Some(s1)
    ensures Apply(s1, Deliver(s.next, true)) == Some(s2)
    ensures OnItsWay(s2, m, goal) && Receiver(s2, m).screen.Dialing?
  {
    var i := s.mail[m].to;
    s1 := Post(Put(s, i, s.sessions[i]), i, DialRequest(0));
    s2 := Apply(s1, Deliver(s.next, true)).value;
  }

  lemma MenuLeads(s: Sys, m: nat, goal: Goal) returns (more: seq<Label>)
    requires OnItsWay(s, m, goal) && Receiver(s, m).screen.Menu?
    ensures Leads(s, more, goal)
  {
    var i := s.mail[m].to;
    var s1, s2 := Redial(s, m, goal);
    hide Leads, Apply, OnItsWay;
    more := DialingLeads(s2, m, goal);
    more := First(s1, Deliver(s.next, true), s2, more, goal);
    more := First(s, Press(i, Enter(Some(0), true)), s1, more, goal);
  }

  lemma NewPassword(s: Sys, m: nat, goal: Goal) returns (s1: Sys, s2: Sys)
    requires OnItsWay(s, m, goal) && Receiver(s, m).screen == Password(true)
    ensures Apply(s, Press(s.mail[m].to, Enter(None, true))) == Some(s1)
    ensures Apply(s1, Deliver(s.next, true)) == Some(s2)
    ensures OnItsWay(s2, m, goal) && Receiver(s2, m).screen.Menu?
  {
    var i := s.mail[m].to;
    s1 := Post(Put(s, i, s.sessions[i]), i, Submitted(true));
    s2 := Apply(s1, Deliver(s.next, true)).value;
  }

  lemma PasswordLeads(s: Sys, m: nat, goal: Goal) returns (more: seq<Label>)
    requires OnItsWay(s, m, goal) && Receiver(s, m).screen.Password?
    ensures Leads(s, more, goal)
    decreases !Receiver(s, m).screen.confirming
  {
    hide Leads;
    var i := s.mail[m].to;
    if s.sessions[i].screen.confirming {
      var s1, s2 := NewPassword(s, m, goal);
      hide Apply, OnItsWay;
      more := MenuLeads(s2, m, goal);
      more := First(s1, Deliver(s.next, true), s2, more, goal);
      more := First(s, Press(i, Enter(None, true)), s1, more, goal);
    } else {
      var s' := Apply(s, Press(i, Tab)).value;
      more := PasswordLeads(s', m, goal);
      more := First(s, Press(i, Tab), s', more, goal);
    }
  }

  // The session is still at the end of an earlier connection: its messages take it to the menu.
  lemma NewsLeads(s: Sys, m: nat, n: nat, goal: Goal) returns (more: seq<Label>)
    requires OnItsWay(s, m, goal) && IsNews(s, n) && n < s.next && s.mail[n].to == s.mail[m].to
    requires Receiver(s, m).screen.Connected? && Receiver(s, m).screen.cleaning.Some?
    ensures Leads(s, more, goal)
    decreases s.mail[n].letter.CleanupDone?
  {
    hide Leads;
    var s' := Apply(s, Deliver(n, true)).value;
    if s.mail[n].letter.CleanupDone? {
      more := NewsLeads(s', m, s.next, goal);
    } else {
      more := MenuLeads(s', m, goal);
    }
    more := First(s, Deliver(n, true), s', more, goal);
  }

  function Remaining(p: Phase): nat {
    match p
    case Queued => 3
    case ModemClosed => 2
    case LockReleased => 1
    case Finished => 0
  }

  lemma CleaningLeads(s: Sys, m: nat, c: nat, goal: Goal) returns (more: seq<Label>)
    requires OnItsWay(s, m, goal) && c in s.cleanups && s.cleanups[c].owner == s.mail[m].to
    requires !s.cleanups[c].phase.Finished?
    requires Receiver(s, m).screen.Connected? && Receiver(s, m).screen.cleaning.Some?
    ensures Leads(s, more, goal)
    decreases Remaining(s.cleanups[c].phase)
  {
    hide Leads;
    var s' := Apply(s, Clean(c)).value;
    if s.cleanups[c].phase.LockReleased? {
      more := NewsLeads(s', m, s.next, goal);
    } else {
      more := CleaningLeads(s', m, c, goal);
    }
    more := First(s, Clean(c), s', more, goal);
  }

  lemma StillCleaningLeads(s: Sys, m: nat, goal: Goal) returns (more: seq<Label>)
    requires OnItsWay(s, m, goal) && Orderly(s) && FreshNames(s) && CleaningOf(s, s.mail[m].to).Some?
    ensures Leads(s, more, goal)
  {
    hide Leads;
    var i := s.mail[m].to;
    var c := CleaningOf(s, i).value;
    assert c in s.cleanups && s.cleanups[c].owner == i;
    if IsCleaned(s, i) {
      var n :| IsNews(s, n) && s.mail[n].to == i;
      more := NewsLeads(s, m, n, goal);
    } else {
      more := CleaningLeads(s, m, c, goal);
    }
  }

  // The session has another modem: it leaves first.
  lemma LeavingLeads(s: Sys, m: nat, goal: Goal) returns (more: seq<Label>)
    requires OnItsWay(s, m, goal) && Receiver(s, m).screen.Connected? && Receiver(s, m).screen.cleaning.None?
    ensures Leads(s, more, goal)
  {
    hide Leads;
    var i := s.mail[m].to;
    var s' := Apply(s, Press(i, CtrlC)).value;
    more := CleaningLeads(s', m, s.next, goal);
    more := First(s, Press(i, CtrlC), s', more, goal);
  }

  lemma GivingUpLeads(s: Sys, m: nat, goal: Goal) returns (more: seq<Label>)
    requires OnItsWay(s, m, goal) && Receiver(s, m).screen.Aborting?
    ensures Leads(s, more, goal)
    decreases !Receiver(s, m).screen.closed
  {
    hide Leads;
    var i := s.mail[m].to;
    var s' := Apply(s, Abort(i)).value;
    if s.sessions[i].screen.closed {
      more := MenuLeads(s', m, goal);
    } else {
      more := GivingUpLeads(s', m, goal);
    }
    more := First(s, Abort(i), s', more, goal);
  }

  lemma MailLeads(s: Sys, m: nat, goal: Goal) returns (more: seq<Label>)
    requires OnItsWay(s, m, goal) && Orderly(s) && FreshNames(s)
    ensures Leads(s, more, goal)
  {
    hide Leads, Orderly, FreshNames;
    match Receiver(s, m).screen {
      case Password(_) => more := PasswordLeads(s, m, goal);
      case Menu => more := MenuLeads(s, m, goal);
      case Dialing(_) => more := DialingLeads(s, m, goal);
      case Connected(_, _, cleaning) =>
        if cleaning.None? {
          more := LeavingLeads(s, m, goal);
        } else {
          more := StillCleaningLeads(s, m, goal);
        }
      case Aborting(_, _) => more := GivingUpLeads(s, m, goal);
    }
  }

  // ------------------------------------------------------------------ dials

  // A way out of every program point but Online: give up at the next occasion.
  function WayOut(pc: Pc): Event {
    match pc
    case NextAttempt(_) => Open(false)
    case Opened(_) => Init(false)
    case Initialised(_) => Configure(false)
    case Ready(_) => Dial(None)
    case Broken => Hangup
    case Dialled(_, _) => Hangup
    case BridgeWait(_, _) => SeeBridge(false)
    case DeviceWait(_) => Release
    case MustRelease(_) => Release
    case _ => Close
  }

  function Distance(pc: Pc): nat {
    match pc
    case Opened(_) => 7
    case Initialised(_) => 7
    case Ready(_) => 7
    case Broken => 6
    case Dialled(_, _) => 6
    case Scrap => 5
    case HungUp(_, _) => 5
    case NextAttempt(_) => 4
    case BridgeWait(_, _) => 3
    case DeviceWait(_) => 2
    case _ => 1
  }

  // On the way out the device is closed before the lock is released.
  lemma WayOutLeadsOut(cfg: bool, pc: Pc)
    requires Holding(pc) && !pc.Online? && Sane(pc)
    ensures var pc' := Step(cfg, pc, WayOut(pc));
            && pc'.Some? && Sane(pc'.value)
            && (WayOut(pc) != Release ==>
                  Holding(pc'.value) && !pc'.value.Online? && Distance(pc'.value) < Distance(pc))
            && (WayOut(pc) == Release ==> !HasHandle(pc))
            && (HasHandle(pc) && WayOut(pc) != Close ==> HasHandle(pc'.value))
  {
    if Step(cfg, pc, WayOut(pc)).Some? {
      SaneStep(cfg, pc, WayOut(pc));
      hide Sane;
    }
  }

  lemma WayOutIsFree(s: Sys, d: nat)
    requires d in s.dials && Holding(s.dials[d].pc) && !s.dials[d].pc.Online?
    requires Step(s.dials[d].cfg, s.dials[d].pc, WayOut(s.dials[d].pc)).Some?
    ensures var g, e := s.dials[d], WayOut(s.dials[d].pc);
            var s' := Apply(s, Go(d, e));
            && s'.Some? && d in s'.value.dials
            && s'.value.dials[d] == g.(pc := Step(g.cfg, g.pc, e).value)
            && (e == Release ==> s'.value.lock == "")
            && (e == Close ==> g.handle !in s'.value.open)
  {
    hide Step;
  }

  lemma DialLeads(s: Sys, d: nat, goal: Goal) returns (more: seq<Label>)
    requires d in s.dials && !s.dials[d].pc.Online? && Sane(s.dials[d].pc)
    requires Holding(s.dials[d].pc) && Serves(HeldByDial(s.dials[d]), goal)
    ensures Leads(s, more, goal)
    decreases Distance(s.dials[d].pc)
  {
    var g := s.dials[d];
    WayOutLeadsOut(g.cfg, g.pc);
    WayOutIsFree(s, d);
    hide Leads, Step, Sane, Apply, Distance, WayOut, Holding, HasHandle;
    var l := Go(d, WayOut(g.pc));
    var s' := Apply(s, l).value;
    if l.e == Release || (goal.Closed? && l.e == Close) {
      more := There(s', goal);
    } else {
      more := DialLeads(s', d, goal);
    }
    more := First(s, l, s', more, goal);
  }

  // CONNECT is handed to an owner who is alive.
  lemma OnlineLeads(s: Sys, d: nat, goal: Goal) returns (more: seq<Label>)
    requires d in s.dials && s.dials[d].pc.Online? && s.sites != []
    requires Orderly(s) && FreshNames(s) && SaneDials(s)
    requires s.dials[d].owner in s.sessions && s.sessions[s.dials[d].owner].alive
    requires Serves(With(s.dials[d].handle), goal)
    ensures Leads(s, more, goal)
  {
    hide Leads, Orderly;
    var l := Go(d, Return(HANDED_OVER));
    var s' := Apply(s, l).value;
    OrderlyStep(s, l);
    StepFresh(s, d);
    more := MailLeads(s', s.next, goal);
    more := First(s, l, s', more, goal);
  }

  lemma StepFresh(s: Sys, d: nat)
    requires d in s.dials && s.dials[d].pc.Online? && FreshNames(s)
    ensures FreshNames(Apply(s, Go(d, Return(HANDED_OVER))).value)
  {
  }

  // A token that is not stranded can be driven to release, and to close its handle if it has one.
  lemma TokenLeads(s: Sys, sites: seq<Site>, t: Token, goal: Goal) returns (more: seq<Label>)
    requires Grounded(s, sites) && Orderly(s) && Serves(Hold(s, t), goal) && !Stranded(s, t)
    ensures Leads(s, more, goal)
  {
    hide Leads, Orderly;
    match t {
      case OfDial(d) =>
        DialFacts(s, d, sites);
        if s.dials[d].pc.Online? {
          more := OnlineLeads(s, d, goal);
        } else {
          more := DialLeads(s, d, goal);
        }
      case OfMail(m) => more := MailLeads(s, m, goal);
      case OfSession(i) =>
        if s.sessions[i].screen.Aborting? {
          more := AbortingLeads(s, i, goal);
        } else {
          more := ConnectedLeads(s, i, goal);
        }
      case OfCleanup(c) => more := CleanupLeads(s, c, goal);
    }
  }

  // ------------------------------------------------------------------ exactly when all is lost

  // The lock is lost for good, in every continuation of a run, iff its token is stranded.
  lemma LostIffStranded(sites: seq<Site>, run: seq<Label>)
    requires AllNamed(sites) && Exec(sites, run).Some?
    ensures (forall more | Exec(sites, run + more).Some? :: Exec(sites, run + more).value.lock != "")
            <==> exists t :: Stranded(Exec(sites, run).value, t)
  {
    hide Exec, Stranded, AllNamed, Leads;
    var s := Exec(sites, run).value;
    var o := RunsKeepOneOwner(sites, run);
    if t :| Stranded(s, t) {
      forall more | Exec(sites, run + more).Some? ensures Exec(sites, run + more).value.lock != "" {
        var t' := StrandedForever(sites, run, more, t);
      }
    } else {
      var more := Unlocks(s, sites, o);
      LeadsExec(sites, run, more, Unlocked);
    }
  }

  lemma Unlocks(s: Sys, sites: seq<Site>, o: Option<Token>) returns (more: seq<Label>)
    requires Governed(s, sites, o) && forall t :: !Stranded(s, t)
    ensures Leads(s, more, Unlocked)
  {
    hide Leads, Stranded, Orderly, FreshNames, SaneDials, Addressed;
    if o.None? {
      more := There(s, Unlocked);
    } else {
      more := TokenLeads(s, sites, o.value, Unlocked);
    }
  }

  // A stranded token keeps its handle open, whatever the sites are called.
  lemma StrandedKeepsHandle(s: Sys, l: Label, sites: seq<Site>, t: Token)
    requires Grounded(s, sites) && Orderly(s) && Apart(s) && Stranded(s, t) && Apply(s, l).Some?
    requires Hold(s, t).handle in s.open
    ensures var s', t' := Apply(s, l).value, Heir(FlowOf(s, l), t);
            Stranded(s', t') && Hold(s', t') == Hold(s, t) && Hold(s, t).handle in s'.open
  {
    StrandedStep(s, l, t);
    StepFlows(s, l);
    StrandedHolds(s, t);
    StrandedMoves(s, l, t);
    hide Apply, FlowOf, Orderly, FreshNames, SaneDials, Addressed, Flows, Stranded, Hold, Apart;
    HandleStays(s, Apply(s, l).value, FlowOf(s, l), t);
  }

  // The token stays, or it is the one that moves.
  lemma StrandedMoves(s: Sys, l: Label, t: Token)
    requires Stranded(s, t) && FreshNames(s) && Apply(s, l).Some?
    ensures Aside(FlowOf(s, l), t) || (FlowOf(s, l).Moves? && FlowOf(s, l).from == t)
  {
    hide FreshNames, Apply, FlowOf;
    match t {
      case OfLost(m) => LostAside(s, l, m);
      case OfMail(m) => MailAside(s, l, m);
      case OfSession(i) => SessionAside(s, l, i);
      case OfDial(d) => DialAside(s, l, d);
    }
  }

  lemma HandleStays(s: Sys, s': Sys, f: Flow, t: Token)
    requires Flows(s, s', f) && Apart(s) && Hold(s, t).With? && Hold(s, t).handle in s.open
    requires Aside(f, t) || (f.Moves? && f.from == t)
    ensures Hold(s', Heir(f, t)) == Hold(s, t) && Hold(s, t).handle in s'.open
  {
    hide Hold, CleanupsApart, OpenHeld;
  }

  lemma HeldOpenForever(sites: seq<Site>, run: seq<Label>, more: seq<Label>, t: Token) returns (t': Token)
    requires Exec(sites, run).Some? && Exec(sites, run + more).Some?
    requires var s := Exec(sites, run).value; Stranded(s, t) && Hold(s, t).With? && Hold(s, t).handle in s.open
    ensures var s, s' := Exec(sites, run).value, Exec(sites, run + more).value;
            Stranded(s', t') && Hold(s', t') == Hold(s, t) && Hold(s, t).handle in s'.open
  {
    if more == [] {
      assert run + more == run;
      return t;
    }
    hide Apply, FlowOf, Stranded, Grounded, Orderly, Apart, Hold;
    var less, l := more[..|more| - 1], more[|more| - 1];
    assert (run + more)[..|run + more| - 1] == run + less;
    t' := HeldOpenForever(sites, run, less, t);
    var s := Exec(sites, run + less).value;
    RunsStayApart(sites, run + less);
    StrandedKeepsHandle(s, l, sites, t');
    t' := Heir(FlowOf(s, l), t');
  }

  // Whatever the sites are called, an open handle stays open in every continuation of a run iff
  // the token that holds it is stranded.
  lemma OpenForeverIffStranded(sites: seq<Site>, run: seq<Label>, h: nat)
    requires Exec(sites, run).Some? && h in Exec(sites, run).value.open
    ensures (forall more | Exec(sites, run + more).Some? :: h in Exec(sites, run + more).value.open)
            <==> exists t :: Stranded(Exec(sites, run).value, t) && Hold(Exec(sites, run).value, t) == With(h)
  {
    hide Exec, Stranded, Leads, Hold, TokensApart, CleanupsApart, Orderly, Grounded;
    var s := Exec(sites, run).value;
    RunsStayApart(sites, run);
    var t :| Hold(s, t) == With(h);
    if u :| Stranded(s, u) && Hold(s, u) == With(h) {
      forall more | Exec(sites, run + more).Some? ensures h in Exec(sites, run + more).value.open {
        var u' := HeldOpenForever(sites, run, more, u);
      }
    } else {
      var more := TokenLeads(s, sites, t, Closed(h));
      LeadsExec(sites, run, more, Closed(h));
    }
  }
}
