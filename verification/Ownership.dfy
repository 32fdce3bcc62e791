/**
 Who holds the one modem.  All sessions, dial goroutines, messages and cleanup commands of the
 hub as one step system: pool.go, dialing.go, model.go and connected.go under internal/.
 Every step is one atomic action of one party; messages are delivered in any order and after
 any delay, and a session may be killed at any moment.
 */
module Ownership {
  import opened Wrappers
  import opened DialProtocol
  import opened Sites

  datatype Screen =
    | Password(confirming: bool)
    | Menu
    | Dialing(done: bool)
    // `cleaning` names the cleanup command that was issued, if any.
    | Connected(siteName: string, handle: nat, cleaning: Option<nat>)
    // The session log could not be created: hang up, close and release, in this order.
    | Aborting(handle: nat, closed: bool)

  datatype Session = Session(alive: bool, screen: Screen, site: string)

  datatype Letter =
    | DialRequest(index: int)
    | Answer(reply: Reply, handle: nat)
    | Submitted(ok: bool)
    | Disconnect
    | CleanupDone
    | TerminalDone
    | QuitMsg                      // what tea.Quit sends: the program ends when it is taken

  datatype Mail = Mail(to: nat, letter: Letter)

  // `selected`: the menu entry Enter applies to, if the list is not being filtered;
  // `accepted`: whether a submitted password is accepted.
  datatype Key = CtrlC | Tab | Enter(selected: Option<int>, accepted: bool)

  datatype Input = Got(letter: Letter) | Typed(key: Key)

  // What a session's commands do to the rest of the system.
  datatype Effect =
    | NoEffect
    | StartDialing(site: Site)
    | IssueCleanup(handle: nat)
    | Send(letter: Letter)
    | GiveUp(handle: nat)          // hang up, close and release on the spot

  datatype Goroutine = Goroutine(owner: nat, site: string, cfg: bool, pc: Pc, handle: nat)

  datatype Phase = Queued | ModemClosed | LockReleased | Finished

  datatype Cleanup = Cleanup(owner: nat, handle: nat, phase: Phase)

  datatype Sys = Sys(
    sites: seq<Site>,
    lock: string,                  // DeviceLock.activeSite
    open: set<nat>,                // device handles that are open
    dials: map<nat, Goroutine>,    // every dial goroutine ever started
    mail: map<nat, Mail>,          // messages not yet delivered
    lost: map<nat, nat>,           // CONNECT results that a session ignored, with their handle
    sessions: map<nat, Session>,
    cleanups: map<nat, Cleanup>,   // every cleanup command ever issued
    next: nat)                     // supply of fresh names

  datatype Label =
    | Login(force: bool)
    | Kill(i: nat)
    | Press(i: nat, key: Key)      // in a connected session CtrlC is also the ~. escape
    | Disrupt(i: nat)              // a pending read or write of the session fails
    | Deliver(m: nat, ok: bool)    // ok: a session log can be created
    | Go(d: nat, e: Event)
    | Clean(c: nat)
    | Abort(i: nat)

  function Initial(sites: seq<Site>): Sys {
    Sys(sites, "", {}, map[], map[], map[], map[], map[], 0)
  }

  // ------------------------------------------------------------------ what a session does

  predicate IsConnect(l: Letter) {
    l.Answer? && l.reply.Answered? && l.reply.result == Connect
  }

  // An input to a session, by the screen it is showing.  `ready`: a session log can be created;
  // `newName` names a cleanup command if one is issued.
  function Decide(x: Session, sites: seq<Site>, newName: nat, input: Input, ready: bool): (Session, Effect) {
    if input == Got(QuitMsg) then (x.(alive := false), NoEffect)
    else DecideOn(x, sites, newName, input, ready)
  }

  function DecideOn(x: Session, sites: seq<Site>, newName: nat, input: Input, ready: bool): (Session, Effect) {
    match x.screen
    case Password(confirming) =>
      (match input
       case Got(l) => (if l == Submitted(true) then x.(screen := Menu) else x, NoEffect)
       case Typed(CtrlC) => (x, Send(QuitMsg))
       case Typed(Tab) => (x.(screen := Password(!confirming)), NoEffect)
       case Typed(Enter(_, accepted)) =>
         if confirming then (x, Send(Submitted(accepted))) else (x.(screen := Password(true)), NoEffect))
    case Menu =>
      (match input
       case Got(l) =>
         if l.DialRequest? && 0 <= l.index < |sites| then
           (x.(screen := Dialing(false), site := sites[l.index].name), StartDialing(sites[l.index]))
         else (x, NoEffect)
       case Typed(CtrlC) => (x, Send(QuitMsg))
       case Typed(Tab) => (x, NoEffect)
       case Typed(Enter(selected, _)) =>
         (x, if selected.Some? then Send(DialRequest(selected.value)) else NoEffect))
    case Dialing(done) =>
      (match input
       case Got(l) =>
         if IsConnect(l) then
           if ready then (x.(screen := Connected(x.site, l.handle, None)), NoEffect)
           else (x.(screen := Menu), GiveUp(l.handle))
         else if l.Answer? || l == Submitted(false) then (x.(screen := Dialing(true)), NoEffect)
         else (x, NoEffect)
       case Typed(CtrlC) => (x.(screen := Menu), NoEffect)
       case Typed(Tab) => (x, NoEffect)
       case Typed(Enter(_, _)) => (if done then x.(screen := Menu) else x, NoEffect))
    case Connected(_, handle, cleaning) =>
      if cleaning.None? && (input == Got(Disconnect) || input == Typed(CtrlC)) then
        (x.(screen := x.screen.(cleaning := Some(newName))), IssueCleanup(handle))
      else if input == Got(TerminalDone) then (x.(screen := Menu), NoEffect)
      else (x, if input == Got(CleanupDone) then Send(TerminalDone) else NoEffect)
    case Aborting(_, _) => (x, NoEffect)
  }

  // ------------------------------------------------------------------ steps

  function Post(s: Sys, to: nat, letter: Letter): Sys {
    s.(mail := s.mail[s.next := Mail(to, letter)], next := s.next + 1)
  }

  function Put(s: Sys, i: nat, x: Session): Sys {
    s.(sessions := s.sessions[i := x])
  }

  predicate Running(s: Sys, i: nat) {
    i in s.sessions && s.sessions[i].alive && !s.sessions[i].screen.Aborting?
  }

  // A session turns into x and starts a dial, or issues a cleanup.

  function StartDial(s: Sys, i: nat, x: Session, site: Site): Sys {
    s.(sessions := s.sessions[i := x],
       dials := s.dials[s.next := Goroutine(i, site.name, site.modemInit != [], Start, 0)],
       next := s.next + 1)
  }

  function StartCleanup(s: Sys, i: nat, x: Session, handle: nat): Sys {
    s.(sessions := s.sessions[i := x],
       cleanups := s.cleanups[s.next := Cleanup(i, handle, Queued)], next := s.next + 1)
  }

  // A session turns into x, and its commands have their effect.
  function Perform(s: Sys, i: nat, x: Session, e: Effect): Sys {
    match e
    case NoEffect => Put(s, i, x)
    case Send(letter) => Post(Put(s, i, x), i, letter)
    case StartDialing(site) => StartDial(s, i, x, site)
    case IssueCleanup(handle) => StartCleanup(s, i, x, handle)
    case GiveUp(handle) => Put(s, i, x.(screen := Aborting(handle, false)))
  }

  function Take(s: Sys, i: nat, input: Input, ready: bool): Sys
    requires i in s.sessions
  {
    var (x, e) := Decide(s.sessions[i], s.sites, s.next, input, ready);
    Perform(s, i, x, e)
  }

  function Unmail(s: Sys, m: nat): Sys {
    s.(mail := s.mail - {m})
  }

  // A CONNECT result is ignored by every screen but the dialing one.
  function Lose(s: Sys, m: nat, handle: nat): Sys {
    s.(mail := s.mail - {m}, lost := s.lost[m := handle])
  }

  function SetPc(s: Sys, d: nat, pc: Pc): Sys
    requires d in s.dials
  {
    s.(dials := s.dials[d := s.dials[d].(pc := pc)])
  }

  // One action of the dial goroutine `d`, with its effect on what it shares.
  function GoEffect(s: Sys, d: nat, e: Event, pc: Pc): Option<Sys>
    requires d in s.dials
  {
    var g := s.dials[d];
    match e
    case Acquire(ok) =>
      if !ok then Some(SetPc(s, d, pc))
      else if s.lock == "" then Some(SetPc(s, d, pc).(lock := g.site)) else None
    case Open(ok) =>
      if !ok then Some(SetPc(s, d, pc))
      else Some(s.(dials := s.dials[d := g.(pc := pc, handle := s.next)],
                   open := s.open + {s.next}, next := s.next + 1))
    case Close => Some(SetPc(s, d, pc).(open := s.open - {g.handle}))
    case Release => Some(SetPc(s, d, pc).(lock := ""))
    case Return(reply) => Some(Post(SetPc(s, d, pc), g.owner, Answer(reply, g.handle)))
    case _ => Some(SetPc(s, d, pc))
  }

  function SetPhase(s: Sys, c: nat, p: Phase): Sys
    requires c in s.cleanups
  {
    s.(cleanups := s.cleanups[c := s.cleanups[c].(phase := p)])
  }

  function CleanEffect(s: Sys, c: nat): Option<Sys>
    requires c in s.cleanups
  {
    var k := s.cleanups[c];
    match k.phase
    case Queued => Some(SetPhase(s, c, ModemClosed).(open := s.open - {k.handle}))
    case ModemClosed => Some(SetPhase(s, c, LockReleased).(lock := ""))
    case LockReleased => Some(Post(SetPhase(s, c, Finished), k.owner, CleanupDone))
    case Finished => None
  }

  // A session that gives up has closed its modem, or has released and is at the menu.
  function GivenUp(x: Session): Session
    requires x.screen.Aborting?
  {
    x.(screen := if x.screen.closed then Menu else Aborting(x.screen.handle, true))
  }

  function AbortEffect(s: Sys, i: nat): Sys
    requires i in s.sessions && s.sessions[i].screen.Aborting?
  {
    var x := s.sessions[i];
    if x.screen.closed then Put(s, i, GivenUp(x)).(lock := "")
    else Put(s, i, GivenUp(x)).(open := s.open - {x.screen.handle})
  }

  function Receive(s: Sys, m: nat, ok: bool): Sys
    requires m in s.mail && s.mail[m].to in s.sessions
  {
    var i, l := s.mail[m].to, s.mail[m].letter;
    if IsConnect(l) && !s.sessions[i].screen.Dialing? then Lose(s, m, l.handle)
    else Take(Unmail(s, m), i, Got(l), ok)
  }

  function Apply(s: Sys, l: Label): Option<Sys> {
    match l
    case Login(force) =>
      Some(Put(s, s.next, Session(true, if force then Password(false) else Menu, "")).(next := s.next + 1))
    case Kill(i) => if i in s.sessions then Some(Put(s, i, s.sessions[i].(alive := false))) else None
    case Press(i, key) => if Running(s, i) then Some(Take(s, i, Typed(key), true)) else None
    case Disrupt(i) => if i in s.sessions then Some(Post(s, i, Disconnect)) else None
    case Deliver(m, ok) =>
      if m in s.mail && Running(s, s.mail[m].to) then Some(Receive(s, m, ok)) else None
    case Go(d, e) =>
      if d in s.dials && Step(s.dials[d].cfg, s.dials[d].pc, e).Some? then
        GoEffect(s, d, e, Step(s.dials[d].cfg, s.dials[d].pc, e).value)
      else None
    case Clean(c) => if c in s.cleanups then CleanEffect(s, c) else None
    case Abort(i) =>
      if i in s.sessions && s.sessions[i].screen.Aborting? then Some(AbortEffect(s, i)) else None
  }

  function Exec(sites: seq<Site>, run: seq<Label>): Option<Sys> {
    if run == [] then Some(Initial(sites))
    else
      match Exec(sites, run[..|run| - 1])
      case None => None
      case Some(s) => Apply(s, run[|run| - 1])
  }

  lemma ExecSnoc(sites: seq<Site>, run: seq<Label>, l: Label)
    requires Exec(sites, run).Some?
    ensures Exec(sites, run + [l]) == Apply(Exec(sites, run).value, l)
  {
    assert (run + [l])[..|run|] == run;
  }

  // Whether the step makes session `i` issue its cleanup command.
  predicate Leaves(s: Sys, i: nat, input: Input) {
    i in s.sessions && s.sessions[i].screen.Connected? && s.sessions[i].screen.cleaning.None?
    && (input == Got(Disconnect) || input == Typed(CtrlC))
  }

  // ------------------------------------------------------------------ what a step cannot change

  // A session's own step: the session changes, and there may be one new message, dial or cleanup.
  ghost predicate TakeShaped(s: Sys, s': Sys, i: nat) {
    && s'.lock == s.lock && s'.open == s.open && s'.lost == s.lost
    && i in s'.sessions && s'.sessions == s.sessions[i := s'.sessions[i]]
    && (s'.mail == s.mail || (s.next in s'.mail && s'.mail == s.mail[s.next := s'.mail[s.next]]))
    && (s'.dials == s.dials || (s.next in s'.dials && s'.dials == s.dials[s.next := s'.dials[s.next]]))
    && (s'.cleanups == s.cleanups
        || (s.next in s'.cleanups && s'.cleanups == s.cleanups[s.next := s'.cleanups[s.next]]))
  }

  lemma PutShape(s: Sys, i: nat, x: Session)
    ensures TakeShaped(s, Put(s, i, x), i)
  {
  }

  lemma SendShape(s: Sys, i: nat, x: Session, l: Letter)
    ensures TakeShaped(s, Post(Put(s, i, x), i, l), i)
  {
  }

  lemma StartDialShape(s: Sys, i: nat, x: Session, site: Site)
    ensures TakeShaped(s, StartDial(s, i, x, site), i)
  {
  }

  lemma StartCleanupShape(s: Sys, i: nat, x: Session, h: nat)
    ensures TakeShaped(s, StartCleanup(s, i, x, h), i)
  {
  }

  lemma TakeShape(s: Sys, i: nat, input: Input, ready: bool)
    requires i in s.sessions
    ensures TakeShaped(s, Take(s, i, input, ready), i)
  {
    hide Decide, TakeShaped, Put, Post, StartDial, StartCleanup;
    var (x, e) := Decide(s.sessions[i], s.sites, s.next, input, ready);
    match e {
      case Send(l) => SendShape(s, i, x, l);
      case StartDialing(site) => StartDialShape(s, i, x, site);
      case IssueCleanup(h) => StartCleanupShape(s, i, x, h);
      case GiveUp(h) => PutShape(s, i, x.(screen := Aborting(h, false)));
      case _ => PutShape(s, i, x);
    }
  }

  // A dial's own step: the dial changes, and there may be one message.
  ghost predicate GoShaped(s: Sys, s': Sys, d: nat) {
    && s'.sessions == s.sessions && s'.cleanups == s.cleanups && s'.lost == s.lost
    && d in s.dials && d in s'.dials && s'.dials == s.dials[d := s'.dials[d]]
    && s'.dials[d].owner == s.dials[d].owner && s'.dials[d].site == s.dials[d].site
  }

  lemma ReturnShape(s: Sys, d: nat, reply: Reply, pc: Pc)
    requires d in s.dials
    ensures var s' := GoEffect(s, d, Return(reply), pc).value;
            GoShaped(s, s', d) && s'.mail == s.mail[s.next := Mail(s.dials[d].owner, Answer(reply, s.dials[d].handle))]
  {
  }

  lemma OpenShape(s: Sys, d: nat, pc: Pc)
    requires d in s.dials
    ensures var s' := GoEffect(s, d, Open(true), pc).value; GoShaped(s, s', d) && s'.mail == s.mail
  {
  }

  lemma SetPcShape(s: Sys, s': Sys, d: nat, pc: Pc)
    requires d in s.dials && s' == SetPc(s, d, pc).(lock := s'.lock, open := s'.open)
    ensures GoShaped(s, s', d) && s'.mail == s.mail
  {
  }

  lemma GoShape(s: Sys, d: nat, e: Event)
    requires Apply(s, Go(d, e)).Some?
    ensures var s' := Apply(s, Go(d, e)).value;
            && GoShaped(s, s', d)
            && s'.mail == if e.Return? then s.mail[s.next := Mail(s.dials[d].owner, Answer(e.reply, s.dials[d].handle))]
                          else s.mail
  {
    hide Step, GoShaped;
    var pc := Step(s.dials[d].cfg, s.dials[d].pc, e).value;
    if e.Return? {
      ReturnShape(s, d, e.reply, pc);
    } else if e == Open(true) {
      OpenShape(s, d, pc);
    } else {
      SetPcShape(s, Apply(s, Go(d, e)).value, d, pc);
    }
  }

  // A cleanup's own step: its phase changes, and there may be one message.
  ghost predicate CleanShaped(s: Sys, s': Sys, c: nat) {
    && s'.sessions == s.sessions && s'.dials == s.dials && s'.lost == s.lost
    && c in s.cleanups && c in s'.cleanups && s'.cleanups == s.cleanups[c := s'.cleanups[c]]
    && s'.cleanups[c].owner == s.cleanups[c].owner && s'.cleanups[c].handle == s.cleanups[c].handle
  }

  lemma PhaseShape(s: Sys, s': Sys, c: nat, p: Phase)
    requires c in s.cleanups
    requires s' == SetPhase(s, c, p).(lock := s'.lock, open := s'.open, mail := s'.mail, next := s'.next)
    ensures CleanShaped(s, s', c)
  {
  }

  lemma CleanShape(s: Sys, c: nat)
    requires Apply(s, Clean(c)).Some?
    ensures var s' := Apply(s, Clean(c)).value;
            && CleanShaped(s, s', c)
            && (s'.mail == s.mail || s'.mail == s.mail[s.next := Mail(s.cleanups[c].owner, CleanupDone)])
  {
    hide CleanShaped;
    var s' := Apply(s, Clean(c)).value;
    match s.cleanups[c].phase {
      case Queued => PhaseShape(s, s', c, ModemClosed);
      case ModemClosed => PhaseShape(s, s', c, LockReleased);
      case LockReleased => PhaseShape(s, s', c, Finished);
      case Finished =>
    }
  }

  lemma AbortShape(s: Sys, i: nat)
    requires Apply(s, Abort(i)).Some?
    ensures var s' := Apply(s, Abort(i)).value;
            && s' == Put(s, i, GivenUp(s.sessions[i])).(lock := s'.lock, open := s'.open)
            && s'.open <= s.open
            && s'.dials == s.dials && s'.mail == s.mail && s'.lost == s.lost && s'.cleanups == s.cleanups
            && i in s'.sessions && s'.sessions == s.sessions[i := s'.sessions[i]]
            && s'.sessions[i].site == s.sessions[i].site
  {
  }

  // Login, Kill and Disrupt.
  lemma SmallShape(s: Sys, l: Label)
    requires Apply(s, l).Some? && (l.Login? || l.Kill? || l.Disrupt?)
    ensures var s' := Apply(s, l).value;
            && s'.dials == s.dials && s'.lost == s.lost && s'.cleanups == s.cleanups
            && (l.Login? ==> s'.mail == s.mail && s'.sessions == s.sessions[s.next := s'.sessions[s.next]])
            && (l.Kill? ==> s'.mail == s.mail && s'.sessions == s.sessions[l.i := s.sessions[l.i].(alive := false)])
            && (l.Disrupt? ==> s'.sessions == s.sessions && s'.mail == s.mail[s.next := Mail(l.i, Disconnect)])
  {
  }
}
