/**
 Ownership tokens: everything that obliges somebody to release the lock, and the handle it has to
 close before.  Every step lets at most one token come, go, change hands, or open or close its
 handle (`FlowOf`), and does to the lock and the open handles just what that means.
 */
module Tokens {
  import opened DialProtocol
  import opened Sites
  import opened Ownership
  import opened Grounds
  import opened Cleanups

  // A dial goroutine past Acquire, a CONNECT result undelivered or ignored, a session that was
  // given the modem and has not issued its cleanup (alive or killed), and a cleanup command that
  // has not reached Release.
  datatype Token = OfDial(d: nat) | OfMail(m: nat) | OfLost(m: nat) | OfSession(i: nat) | OfCleanup(c: nat)

  // No token; a token without a handle; a token that has to close a handle first.
  datatype Held = Nothing | Bare | With(handle: nat)

  function HeldBySession(scr: Screen): Held {
    match scr
    case Connected(_, handle, cleaning) => if cleaning.None? then With(handle) else Nothing
    case Aborting(handle, closed) => if closed then Bare else With(handle)
    case _ => Nothing
  }

  function HeldByCleanup(k: Cleanup): Held {
    match k.phase
    case Queued => With(k.handle)
    case ModemClosed => Bare
    case _ => Nothing
  }

  function HeldByDial(g: Goroutine): Held {
    if !Holding(g.pc) then Nothing else if HasHandle(g.pc) then With(g.handle) else Bare
  }

  function Hold(s: Sys, t: Token): Held {
    match t
    case OfDial(d) => if d in s.dials then HeldByDial(s.dials[d]) else Nothing
    case OfMail(m) => if m in s.mail && IsConnect(s.mail[m].letter) then With(s.mail[m].letter.handle) else Nothing
    case OfLost(m) => if m in s.lost then With(s.lost[m]) else Nothing
    case OfSession(i) => if i in s.sessions then HeldBySession(s.sessions[i].screen) else Nothing
    case OfCleanup(c) => if c in s.cleanups then HeldByCleanup(s.cleanups[c]) else Nothing
  }

  predicate IsToken(s: Sys, t: Token) {
    Hold(s, t) != Nothing
  }

  // ------------------------------------------------------------------ flows

  datatype Flow =
    | Same
    | Moves(from: Token, to: Token)
    | Gains(t: Token)
    | Drops(t: Token)
    | Grabs(t: Token)
    | Yields(t: Token)

  ghost predicate Else(s: Sys, s': Sys, a: Token, b: Token) {
    forall t | t != a && t != b :: Hold(s', t) == Hold(s, t)
  }

  ghost predicate Flows(s: Sys, s': Sys, f: Flow) {
    && s.next <= s'.next
    && match f
       case Same => s'.lock == s.lock && s'.open == s.open && forall t :: Hold(s', t) == Hold(s, t)
       case Moves(a, b) =>
         && s'.lock == s.lock && s'.open == s.open && Else(s, s', a, b)
         && a != b && Hold(s, a) != Nothing && Hold(s, b) == Nothing
         && Hold(s', a) == Nothing && Hold(s', b) == Hold(s, a)
       case Gains(t) =>
         && s.lock == "" && s'.open == s.open && Else(s, s', t, t)
         && Hold(s, t) == Nothing && Hold(s', t) == Bare
       case Drops(t) =>
         && s'.lock == "" && s'.open == s.open && Else(s, s', t, t)
         && Hold(s, t) == Bare && Hold(s', t) == Nothing
       case Grabs(t) =>
         && s'.lock == s.lock && s'.open == s.open + {s.next} && s.next < s'.next && Else(s, s', t, t)
         && Hold(s, t) == Bare && Hold(s', t) == With(s.next)
       case Yields(t) =>
         && s'.lock == s.lock && Hold(s, t).With? && s'.open == s.open - {Hold(s, t).handle}
         && Else(s, s', t, t) && Hold(s', t) == Bare
  }

  function TakeFlow(s: Sys, i: nat, input: Input): Flow {
    if Leaves(s, i, input) then Moves(OfSession(i), OfCleanup(s.next)) else Same
  }

  function GoFlow(s: Sys, d: nat, e: Event): Flow {
    match e
    case Acquire(ok) => if ok then Gains(OfDial(d)) else Same
    case Open(ok) => if ok then Grabs(OfDial(d)) else Same
    case Close => Yields(OfDial(d))
    case Release => Drops(OfDial(d))
    case Return(_) => if d in s.dials && s.dials[d].pc.Online? then Moves(OfDial(d), OfMail(s.next)) else Same
    case _ => Same
  }

  function FlowOf(s: Sys, l: Label): Flow {
    match l
    case Press(i, key) => TakeFlow(s, i, Typed(key))
    case Deliver(m, _) =>
      if m !in s.mail then Same
      else
        var i := s.mail[m].to;
        if !IsConnect(s.mail[m].letter) then TakeFlow(s, i, Got(s.mail[m].letter))
        else Moves(OfMail(m), if i in s.sessions && s.sessions[i].screen.Dialing? then OfSession(i) else OfLost(m))
    case Go(d, e) => GoFlow(s, d, e)
    case Clean(c) =>
      if c !in s.cleanups then Same
      else
        (match s.cleanups[c].phase
         case Queued => Yields(OfCleanup(c))
         case ModemClosed => Drops(OfCleanup(c))
         case _ => Same)
    case Abort(i) =>
      if i in s.sessions && s.sessions[i].screen.Aborting? && s.sessions[i].screen.closed then Drops(OfSession(i))
      else Yields(OfSession(i))
    case _ => Same
  }

  // ------------------------------------------------------------------ each kind of change

  lemma SameThenSame(s: Sys, s1: Sys, s2: Sys, f: Flow)
    requires Flows(s, s1, Same) && Flows(s1, s2, f) && s1.next == s.next
    ensures Flows(s, s2, f)
  {
  }

  lemma ThenSame(s: Sys, s1: Sys, s2: Sys, f: Flow)
    requires Flows(s, s1, f) && Flows(s1, s2, Same)
    ensures Flows(s, s2, f)
  {
  }

  lemma PostFlow(s: Sys, to: nat, l: Letter)
    requires FreshNames(s) && !IsConnect(l)
    ensures Flows(s, Post(s, to, l), Same)
  {
  }

  lemma PutFlow(s: Sys, i: nat, x: Session)
    requires Hold(s, OfSession(i)) == HeldBySession(x.screen)
    ensures Flows(s, Put(s, i, x), Same)
  {
  }

  lemma LoginFlow(s: Sys, x: Session)
    requires FreshNames(s) && HeldBySession(x.screen) == Nothing
    ensures Flows(s, Put(s, s.next, x).(next := s.next + 1), Same)
  {
  }

  lemma UnmailFlow(s: Sys, m: nat)
    requires Hold(s, OfMail(m)) == Nothing
    ensures Flows(s, Unmail(s, m), Same)
  {
  }

  lemma StartDialFlow(s: Sys, i: nat, x: Session, site: Site)
    requires FreshNames(s) && Hold(s, OfSession(i)) == HeldBySession(x.screen)
    ensures Flows(s, StartDial(s, i, x, site), Same)
  {
  }

  lemma StartCleanupFlow(s: Sys, i: nat, x: Session, h: nat)
    requires FreshNames(s) && Hold(s, OfSession(i)) == With(h) && HeldBySession(x.screen) == Nothing
    ensures Flows(s, StartCleanup(s, i, x, h), Moves(OfSession(i), OfCleanup(s.next)))
  {
  }

  lemma LoseFlow(s: Sys, m: nat)
    requires FreshNames(s) && m in s.mail && IsConnect(s.mail[m].letter)
    ensures Flows(s, Lose(s, m, s.mail[m].letter.handle), Moves(OfMail(m), OfLost(m)))
  {
  }

  lemma HandFlow(s: Sys, m: nat, i: nat, x: Session)
    requires m in s.mail && IsConnect(s.mail[m].letter) && Hold(s, OfSession(i)) == Nothing
    requires HeldBySession(x.screen) == With(s.mail[m].letter.handle)
    ensures Flows(s, Put(Unmail(s, m), i, x), Moves(OfMail(m), OfSession(i)))
  {
  }

  lemma SetPcFlow(s: Sys, d: nat, pc: Pc)
    requires d in s.dials && (Holding(pc) <==> Holding(s.dials[d].pc))
    requires Holding(pc) ==> (HasHandle(pc) <==> HasHandle(s.dials[d].pc))
    ensures Flows(s, SetPc(s, d, pc), Same)
  {
  }

  // ------------------------------------------------------------------ sessions

  lemma TakeHolds(x: Session, sites: seq<Site>, n: nat, input: Input, ready: bool)
    requires input.Got? ==> !IsConnect(input.letter)
    requires input == Got(TerminalDone) && x.screen.Connected? ==> x.screen.cleaning.Some?
    ensures var (y, e) := Decide(x, sites, n, input, ready);
            && !e.GiveUp? && (e.Send? ==> !IsConnect(e.letter))
            && (!e.IssueCleanup? ==> HeldBySession(y.screen) == HeldBySession(x.screen))
  {
  }

  // A session is told that its terminal is done only after it has issued its cleanup.
  predicate Timely(s: Sys, i: nat, input: Input) {
    input == Got(TerminalDone) && i in s.sessions && s.sessions[i].screen.Connected?
    ==> s.sessions[i].screen.cleaning.Some?
  }

  lemma TakeFlows(s: Sys, i: nat, input: Input, ready: bool)
    requires FreshNames(s) && i in s.sessions && (input.Got? ==> !IsConnect(input.letter)) && Timely(s, i, input)
    ensures Flows(s, Take(s, i, input, ready), TakeFlow(s, i, input))
  {
    if Leaves(s, i, input) {
      LeaveFlows(s, i, input, ready);
      return;
    }
    TakeHolds(s.sessions[i], s.sites, s.next, input, ready);
    NoCleanup(s, i, input, ready);
    hide Flows, Decide, FreshNames;
    var (x, e) := Decide(s.sessions[i], s.sites, s.next, input, ready);
    PutFlow(s, i, x);
    match e {
      case Send(l) =>
        PutFresh(s, i, x);
        PostFlow(Put(s, i, x), i, l);
        ThenSame(s, Put(s, i, x), Post(Put(s, i, x), i, l), Same);
      case StartDialing(site) => StartDialFlow(s, i, x, site);
      case _ =>
    }
  }

  lemma NoCleanup(s: Sys, i: nat, input: Input, ready: bool)
    requires i in s.sessions && !Leaves(s, i, input)
    ensures !Decide(s.sessions[i], s.sites, s.next, input, ready).1.IssueCleanup?
  {
  }

  lemma LeaveFlows(s: Sys, i: nat, input: Input, ready: bool)
    requires FreshNames(s) && Leaves(s, i, input)
    ensures Flows(s, Take(s, i, input, ready), Moves(OfSession(i), OfCleanup(s.next)))
  {
    hide Flows, FreshNames;
    var (x, e) := Decide(s.sessions[i], s.sites, s.next, input, ready);
    StartCleanupFlow(s, i, x, s.sessions[i].screen.handle);
  }

  lemma ReceiveFlows(s: Sys, m: nat, ok: bool)
    requires Orderly(s) && FreshNames(s) && m in s.mail && s.mail[m].to in s.sessions
    ensures Flows(s, Receive(s, m, ok), FlowOf(s, Deliver(m, ok)))
  {
    var i, l := s.mail[m].to, s.mail[m].letter;
    if IsFarewell(l) {
      NewsFacts(s, m);
    }
    hide Flows, FreshNames, Orderly, Take;
    if !IsConnect(l) {
      UnmailFlow(s, m);
      UnmailFresh(s, m);
      TakeFlows(Unmail(s, m), i, Got(l), ok);
      SameThenSame(s, Unmail(s, m), Receive(s, m, ok), TakeFlow(s, i, Got(l)));
    } else if !s.sessions[i].screen.Dialing? {
      LoseFlow(s, m);
    } else {
      ConnectFlows(s, m, ok);
    }
  }

  lemma ConnectFlows(s: Sys, m: nat, ok: bool)
    requires m in s.mail && IsConnect(s.mail[m].letter)
    requires s.mail[m].to in s.sessions && s.sessions[s.mail[m].to].screen.Dialing?
    ensures Flows(s, Receive(s, m, ok), Moves(OfMail(m), OfSession(s.mail[m].to)))
  {
    hide Flows;
    var i, l := s.mail[m].to, s.mail[m].letter;
    var (x, e) := Decide(s.sessions[i], s.sites, s.next, Got(l), ok);
    HandFlow(s, m, i, if e.GiveUp? then x.(screen := Aborting(e.handle, false)) else x);
  }

  // ------------------------------------------------------------------ dials

  // What the protocol says at each event about holding the lock and the open device.
  ghost predicate Careful(pc: Pc, e: Event, pc': Pc) {
    match e
    case Acquire(ok) => pc.Start? && (if ok then Holding(pc') && !HasHandle(pc') else pc'.Refused?)
    case Open(ok) => Holding(pc) && !HasHandle(pc) && Holding(pc') && (ok <==> HasHandle(pc'))
    case Close => Holding(pc) && HasHandle(pc) && Holding(pc') && !HasHandle(pc')
    case Release => Holding(pc) && !HasHandle(pc) && pc'.Released?
    case Return(reply) =>
      && pc' == Done(reply)
      && (Holding(pc) <==> pc.Online?)
      && (Sane(pc) ==> (pc.Online? <==> IsConnect(Answer(reply, 0))))
      && (pc.Online? ==> reply == HANDED_OVER)
    case _ => (Holding(pc) <==> Holding(pc')) && (HasHandle(pc) <==> HasHandle(pc'))
  }

  lemma ProtocolIsCareful(cfg: bool, pc: Pc, e: Event)
    requires Step(cfg, pc, e).Some?
    ensures Careful(pc, e, Step(cfg, pc, e).value)
  {
  }

  lemma AcquireFlow(s: Sys, d: nat, pc: Pc)
    requires d in s.dials && s.lock == "" && !Holding(s.dials[d].pc) && Holding(pc) && !HasHandle(pc)
    ensures Flows(s, GoEffect(s, d, Acquire(true), pc).value, Gains(OfDial(d)))
  {
  }

  lemma OpenFlow(s: Sys, d: nat, pc: Pc)
    requires d in s.dials && Holding(s.dials[d].pc) && !HasHandle(s.dials[d].pc) && Holding(pc) && HasHandle(pc)
    ensures Flows(s, GoEffect(s, d, Open(true), pc).value, Grabs(OfDial(d)))
  {
  }

  lemma CloseFlow(s: Sys, d: nat, pc: Pc)
    requires d in s.dials && Holding(s.dials[d].pc) && HasHandle(s.dials[d].pc) && Holding(pc) && !HasHandle(pc)
    ensures Flows(s, GoEffect(s, d, Close, pc).value, Yields(OfDial(d)))
  {
  }

  lemma ReleaseFlow(s: Sys, d: nat, pc: Pc)
    requires d in s.dials && Holding(s.dials[d].pc) && !HasHandle(s.dials[d].pc) && !Holding(pc)
    ensures Flows(s, GoEffect(s, d, Release, pc).value, Drops(OfDial(d)))
  {
  }

  // Returning CONNECT hands the token over to the message that carries the modem.
  lemma HandOverFlow(s: Sys, d: nat)
    requires FreshNames(s) && d in s.dials && s.dials[d].pc.Online?
    ensures Flows(s, GoEffect(s, d, Return(HANDED_OVER), Done(HANDED_OVER)).value,
                  Moves(OfDial(d), OfMail(s.next)))
  {
  }

  lemma ReturnFlow(s: Sys, d: nat, reply: Reply)
    requires FreshNames(s) && d in s.dials && !Holding(s.dials[d].pc) && !IsConnect(Answer(reply, 0))
    ensures Flows(s, GoEffect(s, d, Return(reply), Done(reply)).value, Same)
  {
    hide Flows, FreshNames;
    SetPcFresh(s, d, Done(reply));
    SetPcFlow(s, d, Done(reply));
    var s1 := SetPc(s, d, Done(reply));
    PostFlow(s1, s.dials[d].owner, Answer(reply, s.dials[d].handle));
    ThenSame(s, s1, Post(s1, s.dials[d].owner, Answer(reply, s.dials[d].handle)), Same);
  }

  lemma GoFlows(s: Sys, d: nat, e: Event)
    requires FreshNames(s) && Apply(s, Go(d, e)).Some? && Sane(s.dials[d].pc)
    ensures Flows(s, Apply(s, Go(d, e)).value, GoFlow(s, d, e))
  {
    hide Flows, FreshNames, Step, Sane;
    var g := s.dials[d];
    var pc := Step(g.cfg, g.pc, e).value;
    ProtocolIsCareful(g.cfg, g.pc, e);
    match e {
      case Acquire(ok) =>
        if ok {
          AcquireFlow(s, d, pc);
        } else {
          SetPcFlow(s, d, pc);
        }
      case Open(ok) =>
        if ok {
          OpenFlow(s, d, pc);
        } else {
          SetPcFlow(s, d, pc);
        }
      case Close => CloseFlow(s, d, pc);
      case Release => ReleaseFlow(s, d, pc);
      case Return(reply) =>
        if g.pc.Online? {
          HandOverFlow(s, d);
        } else {
          ReturnFlow(s, d, reply);
        }
      case _ => SetPcFlow(s, d, pc);
    }
  }

  // ------------------------------------------------------------------ cleanups and aborts

  lemma CleanFlows(s: Sys, c: nat)
    requires FreshNames(s) && Apply(s, Clean(c)).Some?
    ensures Flows(s, Apply(s, Clean(c)).value, FlowOf(s, Clean(c)))
  {
    if s.cleanups[c].phase == LockReleased {
      FinishFlow(s, c);
    } else {
      PhaseFlow(s, c);
    }
  }

  lemma PhaseFlow(s: Sys, c: nat)
    requires Apply(s, Clean(c)).Some? && s.cleanups[c].phase != LockReleased
    ensures Flows(s, Apply(s, Clean(c)).value, FlowOf(s, Clean(c)))
  {
  }

  lemma FinishFlow(s: Sys, c: nat)
    requires FreshNames(s) && c in s.cleanups && s.cleanups[c].phase == LockReleased
    ensures Flows(s, Apply(s, Clean(c)).value, Same)
  {
    var s1 := SetPhase(s, c, Finished);
    assert Flows(s, s1, Same) && FreshNames(s1);
    hide Flows, FreshNames, SetPhase;
    PostFlow(s1, s.cleanups[c].owner, CleanupDone);
    ThenSame(s, s1, Post(s1, s.cleanups[c].owner, CleanupDone), Same);
  }

  lemma AbortFlows(s: Sys, i: nat)
    requires Apply(s, Abort(i)).Some?
    ensures Flows(s, Apply(s, Abort(i)).value, FlowOf(s, Abort(i)))
  {
    if s.sessions[i].screen.closed {
      AbortDrops(s, i);
    } else {
      AbortYields(s, i);
    }
  }

  lemma AbortDrops(s: Sys, i: nat)
    requires i in s.sessions && s.sessions[i].screen.Aborting? && s.sessions[i].screen.closed
    ensures Flows(s, AbortEffect(s, i), Drops(OfSession(i)))
  {
  }

  lemma AbortYields(s: Sys, i: nat)
    requires i in s.sessions && s.sessions[i].screen.Aborting? && !s.sessions[i].screen.closed
    ensures Flows(s, AbortEffect(s, i), Yields(OfSession(i)))
  {
  }

  // ------------------------------------------------------------------ every step

  lemma StepFlows(s: Sys, l: Label)
    requires Orderly(s) && FreshNames(s) && SaneDials(s) && Apply(s, l).Some?
    ensures Flows(s, Apply(s, l).value, FlowOf(s, l))
  {
    hide Flows, FreshNames, Orderly, Take, Receive, GoEffect, CleanEffect, AbortEffect, Step, Sane;
    match l {
      case Login(force) => LoginFlow(s, Session(true, if force then Password(false) else Menu, ""));
      case Kill(i) => PutFlow(s, i, s.sessions[i].(alive := false));
      case Press(i, key) => TakeFlows(s, i, Typed(key), true);
      case Disrupt(i) => PostFlow(s, i, Disconnect);
      case Deliver(m, ok) => ReceiveFlows(s, m, ok);
      case Go(d, e) => GoFlows(s, d, e);
      case Clean(c) => CleanFlows(s, c);
      case Abort(i) => AbortFlows(s, i);
    }
  }
}
