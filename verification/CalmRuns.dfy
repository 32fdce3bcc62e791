/**
 Runs in which nobody walks away from the modem, by what disturbs a run: a dial abandoned while it
 runs, a session killed, or ended by a late quit, on a screen that is not quiet, and an error of a
 password submission that reaches a session that is dialing.  In runs with none of these the lock
 is free whenever every live session shows a quiet screen, and every CONNECT is for a live session
 that waits for it.  In runs that only killing and quitting disturb, no CONNECT is ever ignored, and
 a connected session is the one the lock names.
 */
module CalmRuns {
  import opened Wrappers
  import opened DialProtocol
  import opened Sites
  import opened Ownership
  import opened Grounds
  import opened Cleanups
  import opened Tokens
  import opened Handles
  import opened Exclusion
  import opened Stranding

  // The password screen, the menu and the failed-dial screen.
  predicate Quiet(scr: Screen) {
    scr.Password? || scr.Menu? || scr == Dialing(true)
  }

  predicate Alive(s: Sys, i: nat) {
    i in s.sessions && s.sessions[i].alive
  }

  // The session shows that its dial is running.
  predicate Waits(s: Sys, i: nat) {
    i in s.sessions && s.sessions[i].screen == Dialing(false)
  }

  predicate Busy(s: Sys, i: nat) {
    i in s.sessions && !Quiet(s.sessions[i].screen)
  }

  datatype Slip = Abandons | Kills | LateError | LateQuit

  // The ways to disturb a run, each by the guard of the branch that does harm.
  function SlipsOf(s: Sys, l: Label): seq<Slip> {
    match l
    case Kill(i) => if Alive(s, i) && Busy(s, i) then [Kills] else []
    case Press(i, key) => if key == CtrlC && Waits(s, i) then [Abandons] else []
    case Deliver(m, _) =>
      if m !in s.mail then []
      else if s.mail[m].letter == Submitted(false) && Waits(s, s.mail[m].to) then [LateError]
      else if s.mail[m].letter == QuitMsg && Busy(s, s.mail[m].to) then [LateQuit]
      else []
    case _ => []
  }

  // What disturbed a run, in order.
  function Slips(sites: seq<Site>, run: seq<Label>): seq<Slip> {
    if run == [] then []
    else
      var before := run[..|run| - 1];
      Slips(sites, before)
      + if Exec(sites, before).Some? then SlipsOf(Exec(sites, before).value, run[|run| - 1]) else []
  }

  ghost predicate CalmRun(sites: seq<Site>, run: seq<Label>) {
    Exec(sites, run).Some? && Slips(sites, run) == []
  }

  // Sessions may have ended, but nobody has walked away from a dial.
  predicate Loyal(slips: seq<Slip>) {
    Abandons !in slips && LateError !in slips
  }

  ghost predicate LoyalRun(sites: seq<Site>, run: seq<Label>) {
    Exec(sites, run).Some? && Loyal(Slips(sites, run))
  }

  // ------------------------------------------------------------------ who waits for what

  // An unfinished dial, and an answer on its way, are for one session.
  datatype Claim = OfGoroutine(d: nat) | OfAnswer(m: nat)

  function Claimant(s: Sys, k: Claim): Option<nat> {
    match k
    case OfGoroutine(d) => if d in s.dials && !s.dials[d].pc.Done? then Some(s.dials[d].owner) else None
    case OfAnswer(m) => if m in s.mail && s.mail[m].letter.Answer? then Some(s.mail[m].to) else None
  }

  ghost predicate Unclaimed(s: Sys, i: nat) {
    forall k :: Claimant(s, k) != Some(i)
  }

  // Each claim is on a session of its own that waits for it.
  ghost predicate ClaimsAwaited(s: Sys) {
    && (forall k :: Claimant(s, k).Some? ==> Waits(s, Claimant(s, k).value))
    && (forall k, n | Claimant(s, k).Some? && Claimant(s, k) == Claimant(s, n) :: k == n)
  }

  ghost predicate DialsNamed(s: Sys) {
    forall d :: d in s.dials && !s.dials[d].pc.Done? && s.dials[d].owner in s.sessions ==>
      s.dials[d].site == s.sessions[s.dials[d].owner].site
  }

  predicate Sound(x: Session) {
    x.screen.Connected? ==> x.screen.siteName == x.site
  }

  ghost predicate Settled(s: Sys) {
    s.lost == map[] && forall i :: i in s.sessions ==> Sound(s.sessions[i])
  }

  ghost predicate Awaited(s: Sys) {
    ClaimsAwaited(s) && DialsNamed(s) && Settled(s)
  }

  // ------------------------------------------------------------------ each kind of change

  lemma NotAwaiting(s: Sys, i: nat)
    requires Awaited(s) && !Waits(s, i)
    ensures Unclaimed(s, i)
  {
  }

  // No claim is new.
  lemma FewerClaims(s: Sys, s': Sys)
    requires Awaited(s) && s'.sessions == s.sessions && s'.lost == s.lost
    requires forall k :: Claimant(s', k).Some? ==> Claimant(s', k) == Claimant(s, k)
    requires forall d :: d in s'.dials && !s'.dials[d].pc.Done? ==>
               d in s.dials && s'.dials[d].site == s.dials[d].site && s'.dials[d].owner == s.dials[d].owner
    ensures Awaited(s')
  {
    forall d | d in s'.dials && !s'.dials[d].pc.Done?
      ensures d in s.dials && !s.dials[d].pc.Done?
    {
      assert Claimant(s', OfGoroutine(d)) == Claimant(s, OfGoroutine(d));
    }
  }

  lemma PutAwaited(s: Sys, i: nat, x: Session)
    requires Awaited(s) && Sound(x)
    requires Unclaimed(s, i)
             || (i in s.sessions && x.screen == s.sessions[i].screen && x.site == s.sessions[i].site)
    ensures Awaited(Put(s, i, x))
  {
    var s' := Put(s, i, x);
    forall k ensures Claimant(s', k) == Claimant(s, k) {
    }
    forall d | d in s'.dials && !s'.dials[d].pc.Done? ensures Claimant(s, OfGoroutine(d)) == Some(s.dials[d].owner) {
    }
  }

  lemma PostAwaited(s: Sys, to: nat, l: Letter)
    requires Awaited(s) && FreshNames(s) && !l.Answer?
    ensures Awaited(Post(s, to, l))
  {
    FewerClaims(s, Post(s, to, l));
  }

  lemma UnmailAwaited(s: Sys, m: nat)
    requires Awaited(s)
    ensures Awaited(Unmail(s, m))
  {
    FewerClaims(s, Unmail(s, m));
  }

  lemma ElsewhereAwaited(s: Sys, s': Sys)
    requires Awaited(s)
    requires s'.sessions == s.sessions && s'.mail == s.mail && s'.dials == s.dials && s'.lost == s.lost
    ensures Awaited(s')
  {
    FewerClaims(s, s');
  }

  lemma PcAwaited(s: Sys, s': Sys, d: nat, g: Goroutine)
    requires Awaited(s) && d in s.dials && !s.dials[d].pc.Done?
    requires g.owner == s.dials[d].owner && g.site == s.dials[d].site
    requires s' == s.(dials := s.dials[d := g], lock := s'.lock, open := s'.open, next := s'.next)
    ensures Awaited(s')
  {
    FewerClaims(s, s');
  }

  // A session that is not dialing starts a dial.
  lemma StartDialAwaited(s: Sys, i: nat, x: Session, site: Site)
    requires Awaited(s) && FreshNames(s) && Unclaimed(s, i)
    requires x.screen == Dialing(false) && x.site == site.name
    ensures Awaited(StartDial(s, i, x, site))
  {
    PutAwaited(s, i, x);
    forall k ensures Claimant(Put(s, i, x), k) == Claimant(s, k) {
    }
    OneMoreClaim(Put(s, i, x), StartDial(s, i, x, site), OfGoroutine(s.next), i);
  }

  lemma OneMoreClaim(s: Sys, s': Sys, n: Claim, i: nat)
    requires Awaited(s) && s'.sessions == s.sessions && s'.lost == s.lost
    requires Unclaimed(s, i) && Waits(s, i) && Claimant(s', n) == Some(i)
    requires forall k :: k != n && Claimant(s', k).Some? ==> Claimant(s', k) == Claimant(s, k)
    requires DialsNamed(s')
    ensures Awaited(s')
  {
  }

  // The answer takes the place of the dial that returns it.
  lemma ReturnAwaited(s: Sys, d: nat, reply: Reply)
    requires Awaited(s) && FreshNames(s) && d in s.dials && !s.dials[d].pc.Done?
    ensures Awaited(GoEffect(s, d, Return(reply), Done(reply)).value)
  {
    var s1, i := SetPc(s, d, Done(reply)), s.dials[d].owner;
    FewerClaims(s, s1);
    assert Claimant(s, OfGoroutine(d)) == Some(i);
    var s2 := Post(s1, i, Answer(reply, s.dials[d].handle));
    ReturnsClaim(s, d, reply);
    OneMoreClaim(s1, s2, OfAnswer(s.next), i);
  }

  lemma ReturnsClaim(s: Sys, d: nat, reply: Reply)
    requires ClaimsAwaited(s) && d in s.dials && !s.dials[d].pc.Done?
    ensures Unclaimed(SetPc(s, d, Done(reply)), s.dials[d].owner)
  {
    var i := s.dials[d].owner;
    assert Claimant(s, OfGoroutine(d)) == Some(i);
    forall k ensures Claimant(SetPc(s, d, Done(reply)), k) != Some(i) {
      if k != OfGoroutine(d) {
        assert Claimant(s, k) != Some(i);
      }
    }
  }

  // ------------------------------------------------------------------ sessions

  lemma DecideSound(x: Session, sites: seq<Site>, n: nat, input: Input, ready: bool)
    requires Sound(x)
    ensures var (y, e) := Decide(x, sites, n, input, ready);
            && Sound(y) && (e.Send? ==> !e.letter.Answer?)
            && (e.StartDialing? ==> y.screen == Dialing(false) && y.site == e.site.name)
  {
  }

  // An input that leaves a session's screen alone.
  predicate Idles(x: Session, sites: seq<Site>, n: nat, input: Input, ready: bool) {
    var (y, e) := Decide(x, sites, n, input, ready);
    y.screen == x.screen && y.site == x.site && e == NoEffect
  }

  lemma TakeAwaited(s: Sys, i: nat, input: Input, ready: bool)
    requires Awaited(s) && FreshNames(s) && Running(s, i)
    requires Unclaimed(s, i) || Idles(s.sessions[i], s.sites, s.next, input, ready)
    ensures Awaited(Take(s, i, input, ready))
  {
    SessionSound(s, i);
    DecideSound(s.sessions[i], s.sites, s.next, input, ready);
    hide Awaited, FreshNames, Decide, Unclaimed;
    var (x, e) := Decide(s.sessions[i], s.sites, s.next, input, ready);
    match e {
      case Send(l) =>
        PutAwaited(s, i, x);
        PutFresh(s, i, x);
        PostAwaited(Put(s, i, x), i, l);
      case StartDialing(site) => StartDialAwaited(s, i, x, site);
      case IssueCleanup(h) =>
        PutAwaited(s, i, x);
        ElsewhereAwaited(Put(s, i, x), StartCleanup(s, i, x, h));
      case GiveUp(h) => PutAwaited(s, i, x.(screen := Aborting(h, false)));
      case NoEffect => PutAwaited(s, i, x);
    }
  }

  lemma SessionSound(s: Sys, i: nat)
    requires Awaited(s) && i in s.sessions
    ensures Sound(s.sessions[i])
  {
  }

  lemma PressIdles(x: Session, sites: seq<Site>, n: nat, key: Key)
    requires x.screen == Dialing(false) && key != CtrlC
    ensures Idles(x, sites, n, Typed(key), true)
  {
  }

  lemma PressAwaited(s: Sys, i: nat, key: Key)
    requires Awaited(s) && FreshNames(s) && Running(s, i) && Loyal(SlipsOf(s, Press(i, key)))
    ensures Awaited(Take(s, i, Typed(key), true))
  {
    if Waits(s, i) {
      assert key != CtrlC;
      PressIdles(s.sessions[i], s.sites, s.next, key);
    } else {
      NotAwaiting(s, i);
    }
    hide Awaited, FreshNames, Take, Idles, Unclaimed;
    TakeAwaited(s, i, Typed(key), true);
  }

  lemma GotIdles(x: Session, sites: seq<Site>, n: nat, l: Letter, ready: bool)
    requires x.screen == Dialing(false) && !l.Answer? && l != Submitted(false)
    ensures Idles(x, sites, n, Got(l), ready)
  {
  }

  // The answer is the only claim on the session that gets it.
  lemma AnswerArrives(s: Sys, m: nat)
    requires Awaited(s) && m in s.mail && s.mail[m].letter.Answer?
    ensures Waits(s, s.mail[m].to) && Unclaimed(Unmail(s, m), s.mail[m].to)
  {
    var i := s.mail[m].to;
    assert Claimant(s, OfAnswer(m)) == Some(i);
    forall k ensures Claimant(Unmail(s, m), k) != Some(i) {
      if k != OfAnswer(m) {
        assert Claimant(s, k) != Some(i);
      }
    }
  }

  lemma ReceiveAwaited(s: Sys, m: nat, ok: bool)
    requires Awaited(s) && FreshNames(s) && m in s.mail && Running(s, s.mail[m].to)
    requires Loyal(SlipsOf(s, Deliver(m, ok)))
    ensures Awaited(Receive(s, m, ok))
  {
    var i, l := s.mail[m].to, s.mail[m].letter;
    var s1 := Unmail(s, m);
    UnmailAwaited(s, m);
    UnmailFresh(s, m);
    if l.Answer? {
      AnswerArrives(s, m);
    } else if Waits(s, i) {
      assert l != Submitted(false);
      GotIdles(s.sessions[i], s.sites, s.next, l, ok);
    } else {
      NotAwaiting(s1, i);
    }
    hide Awaited, FreshNames, Take, Idles, Unclaimed;
    TakeAwaited(s1, i, Got(l), ok);
  }

  // ------------------------------------------------------------------ every step

  lemma NothingAfterDone(cfg: bool, r: Reply, e: Event)
    ensures Step(cfg, Done(r), e).None?
  {
  }

  lemma ReturnsDone(cfg: bool, pc: Pc, r: Reply)
    requires Step(cfg, pc, Return(r)).Some?
    ensures Step(cfg, pc, Return(r)).value == Done(r)
  {
  }

  lemma GoAwaited(s: Sys, d: nat, e: Event)
    requires Awaited(s) && FreshNames(s) && Apply(s, Go(d, e)).Some?
    ensures Awaited(Apply(s, Go(d, e)).value)
  {
    hide Awaited, FreshNames, Step;
    var g := s.dials[d];
    if g.pc.Done? {
      NothingAfterDone(g.cfg, g.pc.reply, e);
    } else if e.Return? {
      ReturnsDone(g.cfg, g.pc, e.reply);
      ReturnAwaited(s, d, e.reply);
    } else {
      var s' := Apply(s, Go(d, e)).value;
      PcAwaited(s, s', d, s'.dials[d]);
    }
  }

  lemma CleanAwaited(s: Sys, c: nat)
    requires Awaited(s) && FreshNames(s) && Apply(s, Clean(c)).Some?
    ensures Awaited(Apply(s, Clean(c)).value)
  {
    hide Awaited;
    var s' := Apply(s, Clean(c)).value;
    if s.cleanups[c].phase == LockReleased {
      var s1 := SetPhase(s, c, Finished);
      ElsewhereAwaited(s, s1);
      PostAwaited(s1, s.cleanups[c].owner, CleanupDone);
    } else {
      ElsewhereAwaited(s, s');
    }
  }

  lemma AbortAwaited(s: Sys, i: nat)
    requires Awaited(s) && Apply(s, Abort(i)).Some?
    ensures Awaited(Apply(s, Abort(i)).value)
  {
    SessionSound(s, i);
    NotAwaiting(s, i);
    AbortShape(s, i);
    var s', x := Apply(s, Abort(i)).value, GivenUp(s.sessions[i]);
    hide Awaited, Unclaimed, Apply;
    PutAwaited(s, i, x);
    ElsewhereAwaited(Put(s, i, x), s');
  }

  lemma LoginAwaited(s: Sys, force: bool)
    requires Awaited(s) && FreshNames(s)
    ensures Awaited(Apply(s, Login(force)).value)
  {
    assert !Waits(s, s.next);
    NotAwaiting(s, s.next);
    hide Awaited, Unclaimed;
    var s' := Apply(s, Login(force)).value;
    PutAwaited(s, s.next, s'.sessions[s.next]);
    ElsewhereAwaited(Put(s, s.next, s'.sessions[s.next]), s');
  }

  lemma KillAwaited(s: Sys, i: nat)
    requires Awaited(s) && i in s.sessions
    ensures Awaited(Put(s, i, s.sessions[i].(alive := false)))
  {
    SessionSound(s, i);
    hide Awaited, Unclaimed;
    PutAwaited(s, i, s.sessions[i].(alive := false));
  }

  lemma AwaitedStep(s: Sys, l: Label)
    requires Awaited(s) && FreshNames(s) && Loyal(SlipsOf(s, l)) && Apply(s, l).Some?
    ensures Awaited(Apply(s, l).value)
  {
    hide Loyal, SlipsOf, Awaited, FreshNames, Take, Receive, GoEffect, CleanEffect, AbortEffect, Step, Post, Put;
    match l {
      case Login(force) => LoginAwaited(s, force);
      case Kill(i) => KillAwaited(s, i);
      case Press(i, key) => PressAwaited(s, i, key);
      case Disrupt(i) => PostAwaited(s, i, Disconnect);
      case Deliver(m, ok) => ReceiveAwaited(s, m, ok);
      case Go(d, e) => GoAwaited(s, d, e);
      case Clean(c) => CleanAwaited(s, c);
      case Abort(i) => AbortAwaited(s, i);
    }
  }

  // ------------------------------------------------------------------ the lock names the owner's site

  // The session a token is for.
  function SessionOf(s: Sys, t: Token): Option<nat> {
    match t
    case OfDial(d) => if d in s.dials then Some(s.dials[d].owner) else None
    case OfMail(m) => if m in s.mail then Some(s.mail[m].to) else None
    case OfLost(_) => None
    case OfSession(i) => Some(i)
    case OfCleanup(c) => if c in s.cleanups then Some(s.cleanups[c].owner) else None
  }

  // Behind every token there is a session that is not at a quiet screen.
  lemma TokenMeansBusy(s: Sys, t: Token)
    requires IsToken(s, t) && Awaited(s) && Orderly(s)
    ensures SessionOf(s, t).Some? && Busy(s, SessionOf(s, t).value)
  {
    match t {
      case OfDial(d) => assert Claimant(s, OfGoroutine(d)) == Some(s.dials[d].owner);
      case OfMail(m) => assert Claimant(s, OfAnswer(m)) == Some(s.mail[m].to);
      case OfSession(i) =>
      case OfCleanup(c) => assert IsCleaning(s, s.cleanups[c].owner, c);
    }
  }

  // What a dial or a cleanup is for never changes.
  ghost predicate Faithful(s: Sys, s': Sys) {
    && (forall d :: d in s.dials ==> d in s'.dials && s'.dials[d].owner == s.dials[d].owner
                                     && s'.dials[d].site == s.dials[d].site)
    && (forall c :: c in s.cleanups ==> c in s'.cleanups && s'.cleanups[c].owner == s.cleanups[c].owner)
  }

  lemma TakeFaithful(s: Sys, i: nat, input: Input, ready: bool)
    requires FreshNames(s) && i in s.sessions
    ensures Faithful(s, Take(s, i, input, ready))
  {
    TakeShape(s, i, input, ready);
    hide Take;
  }

  lemma GoFaithful(s: Sys, d: nat, e: Event)
    requires FreshNames(s) && Apply(s, Go(d, e)).Some?
    ensures Faithful(s, Apply(s, Go(d, e)).value)
  {
    GoShape(s, d, e);
    hide Apply;
  }

  lemma StepFaithful(s: Sys, l: Label)
    requires FreshNames(s) && Apply(s, l).Some?
    ensures Faithful(s, Apply(s, l).value)
  {
    hide FreshNames, Take, Receive, GoEffect, CleanEffect, AbortEffect, Step, Put, Post;
    match l {
      case Press(i, key) => TakeFaithful(s, i, Typed(key), true);
      case Deliver(m, ok) => ReceiveFaithful(s, m, ok);
      case Go(d, e) => GoFaithful(s, d, e);
      case Clean(c) => CleanShape(s, c);
      case Abort(i) => AbortShape(s, i);
      case _ => SmallShape(s, l);
    }
  }

  lemma ReceiveFaithful(s: Sys, m: nat, ok: bool)
    requires FreshNames(s) && m in s.mail && s.mail[m].to in s.sessions
    ensures Faithful(s, Receive(s, m, ok))
  {
    hide FreshNames, Take;
    if !(IsConnect(s.mail[m].letter) && !s.sessions[s.mail[m].to].screen.Dialing?) {
      UnmailFresh(s, m);
      TakeFaithful(Unmail(s, m), s.mail[m].to, Got(s.mail[m].letter), ok);
    }
  }

  // A token that changes hands stays with its session.

  lemma LeaveStays(s: Sys, i: nat, input: Input, ready: bool)
    requires Leaves(s, i, input)
    ensures SessionOf(Take(s, i, input, ready), OfCleanup(s.next)) == Some(i)
  {
  }

  lemma MoveStays(s: Sys, l: Label)
    requires Apply(s, l).Some? && FlowOf(s, l).Moves?
    requires l.Deliver? && IsConnect(s.mail[l.m].letter) ==> Waits(s, s.mail[l.m].to)
    ensures var f := FlowOf(s, l); SessionOf(Apply(s, l).value, f.to) == SessionOf(s, f.from)
  {
    hide Step, Take;
    match l {
      case Press(i, key) => LeaveStays(s, i, Typed(key), true);
      case Deliver(m, ok) =>
        if !IsConnect(s.mail[m].letter) {
          LeaveStays(Unmail(s, m), s.mail[m].to, Got(s.mail[m].letter), ok);
        }
      case Go(_, _) =>
      case _ =>
    }
  }

  lemma TokenStays(s: Sys, s': Sys, t: Token)
    requires IsToken(s, t) && IsToken(s', t) && Faithful(s, s') && Spares(s, s')
    ensures SessionOf(s', t) == SessionOf(s, t)
  {
  }

  lemma SessionStays(s: Sys, l: Label, t: Token)
    requires IsToken(s, t) && Apply(s, l).Some? && FreshNames(s)
    requires l.Deliver? && IsConnect(s.mail[l.m].letter) ==> Waits(s, s.mail[l.m].to)
    requires IsToken(Apply(s, l).value, Heir(FlowOf(s, l), t))
    ensures SessionOf(Apply(s, l).value, Heir(FlowOf(s, l), t)) == SessionOf(s, t)
  {
    StepFaithful(s, l);
    StepSpares(s, l);
    hide Apply, FlowOf, IsToken, FreshNames, Faithful, Spares;
    if FlowOf(s, l).Moves? && t == FlowOf(s, l).from {
      MoveStays(s, l);
    } else {
      TokenStays(s, Apply(s, l).value, t);
    }
  }

  // A session changes its site at the menu only.

  lemma TakeKeepsSite(s: Sys, j: nat, input: Input, ready: bool, i: nat)
    requires j in s.sessions && i in s.sessions && !s.sessions[i].screen.Menu?
    ensures var s' := Take(s, j, input, ready); i in s'.sessions && s'.sessions[i].site == s.sessions[i].site
  {
    hide Decide;
    if j == i {
      DecideKeepsSite(s.sessions[j], s.sites, s.next, input, ready);
    }
  }

  lemma DecideKeepsSite(x: Session, sites: seq<Site>, n: nat, input: Input, ready: bool)
    ensures !x.screen.Menu? ==> Decide(x, sites, n, input, ready).0.site == x.site
  {
  }

  lemma StepKeepsSite(s: Sys, l: Label, i: nat)
    requires Apply(s, l).Some? && i in s.sessions && !s.sessions[i].screen.Menu? && FreshNames(s)
    ensures i in Apply(s, l).value.sessions && Apply(s, l).value.sessions[i].site == s.sessions[i].site
  {
    hide Take, Receive, GoEffect, CleanEffect, AbortEffect, Step, Put, Post;
    match l {
      case Press(j, key) => TakeKeepsSite(s, j, Typed(key), true, i);
      case Deliver(m, ok) => ReceiveKeepsSite(s, m, ok, i);
      case Go(d, e) => GoShape(s, d, e);
      case Clean(c) => CleanShape(s, c);
      case Abort(j) => AbortShape(s, j);
      case _ => SmallShape(s, l);
    }
  }

  lemma ReceiveKeepsSite(s: Sys, m: nat, ok: bool, i: nat)
    requires m in s.mail && s.mail[m].to in s.sessions && i in s.sessions && !s.sessions[i].screen.Menu?
    ensures i in Receive(s, m, ok).sessions && Receive(s, m, ok).sessions[i].site == s.sessions[i].site
  {
    hide Take;
    if !(IsConnect(s.mail[m].letter) && !s.sessions[s.mail[m].to].screen.Dialing?) {
      TakeKeepsSite(Unmail(s, m), s.mail[m].to, Got(s.mail[m].letter), ok, i);
    }
  }

  ghost predicate Truthful(s: Sys, o: Option<Token>) {
    o.Some? ==> var i := SessionOf(s, o.value);
                i.Some? && i.value in s.sessions && s.sessions[i.value].site == s.lock
  }

  ghost predicate Serene(s: Sys, sites: seq<Site>, o: Option<Token>) {
    Governed(s, sites, o) && Awaited(s) && Truthful(s, o)
  }

  lemma GainIsTruthful(s: Sys, l: Label, sites: seq<Site>)
    requires Grounded(s, sites) && Awaited(s) && Apply(s, l).Some? && FlowOf(s, l).Gains?
    ensures Truthful(Apply(s, l).value, Some(FlowOf(s, l).t))
  {
    OnlyDialsGain(s, l);
    DialFacts(s, l.d, sites);
    StartsUndone(s.dials[l.d].cfg, s.dials[l.d].pc);
    hide Step, Sane, FreshNames, SaneDials, Listed, ClaimsAwaited, Settled;
  }

  lemma StartsUndone(cfg: bool, pc: Pc)
    requires Step(cfg, pc, Acquire(true)).Some?
    ensures !pc.Done?
  {
  }

  lemma LockFollows(s: Sys, s': Sys, f: Flow, o: Option<Token>)
    requires OneOwner(s, o) && Flows(s, s', f) && !f.Gains? && NextOwner(o, f).Some?
    ensures o.Some? && s'.lock == s.lock && NextOwner(o, f) == Some(Heir(f, o.value)) && IsToken(s', Heir(f, o.value))
  {
    hide Hold;
    if f.Moves? {
      assert IsToken(s, f.from);
    }
  }

  lemma TruthfulStep(s: Sys, l: Label, sites: seq<Site>, o: Option<Token>)
    requires Serene(s, sites, o) && Apply(s, l).Some? && NextOwner(o, FlowOf(s, l)).Some? && !FlowOf(s, l).Gains?
    ensures Truthful(Apply(s, l).value, NextOwner(o, FlowOf(s, l)))
  {
    var s', f := Apply(s, l).value, FlowOf(s, l);
    StepFlows(s, l);
    LockFollows(s, s', f, o);
    TokenMeansBusy(s, o.value);
    ConnectAwaited(s, l);
    SessionStays(s, l, o.value);
    StepKeepsSite(s, l, SessionOf(s, o.value).value);
  }

  lemma ConnectAwaited(s: Sys, l: Label)
    requires Awaited(s)
    ensures l.Deliver? && l.m in s.mail && IsConnect(s.mail[l.m].letter) ==> Waits(s, s.mail[l.m].to)
  {
    if l.Deliver? && l.m in s.mail && IsConnect(s.mail[l.m].letter) {
      assert Claimant(s, OfAnswer(l.m)).Some?;
    }
  }

  // ------------------------------------------------------------------ whole runs

  lemma SlipsSplit(sites: seq<Site>, run: seq<Label>)
    requires run != [] && Exec(sites, run).Some?
    ensures var before, l := run[..|run| - 1], run[|run| - 1];
            && Exec(sites, before).Some? && Apply(Exec(sites, before).value, l) == Exec(sites, run)
            && Slips(sites, run) == Slips(sites, before) + SlipsOf(Exec(sites, before).value, l)
  {
    hide Apply, SlipsOf;
  }

  lemma RunsStayAwaited(sites: seq<Site>, run: seq<Label>)
    requires LoyalRun(sites, run)
    ensures Awaited(Exec(sites, run).value)
  {
    if run != [] {
      SlipsSplit(sites, run);
      hide Awaited, Apply, SlipsOf;
      var before := run[..|run| - 1];
      RunsStayAwaited(sites, before);
      RunsStayGrounded(sites, before);
      AwaitedStep(Exec(sites, before).value, run[|run| - 1]);
    }
  }

  // The lock is taken only on behalf of some token, whatever the sites are called.
  ghost predicate LockHeld(s: Sys) {
    s.lock != "" ==> exists t :: IsToken(s, t)
  }

  lemma LockHeldStep(s: Sys, s': Sys, f: Flow)
    requires LockHeld(s) && Flows(s, s', f)
    ensures LockHeld(s')
  {
    hide Hold;
    if s'.lock != "" {
      if f.Gains? {
        assert IsToken(s', f.t);
      } else {
        var t :| IsToken(s, t);
        assert IsToken(s', Heir(f, t));
      }
    }
  }

  lemma RunsKeepLockHeld(sites: seq<Site>, run: seq<Label>)
    requires Exec(sites, run).Some?
    ensures LockHeld(Exec(sites, run).value)
  {
    if run != [] {
      hide LockHeld, Apply, FlowOf, Flows;
      var before, l := run[..|run| - 1], run[|run| - 1];
      RunsKeepLockHeld(sites, before);
      RunsStayOrderly(sites, before);
      StepFlows(Exec(sites, before).value, l);
      LockHeldStep(Exec(sites, before).value, Exec(sites, run).value, FlowOf(Exec(sites, before).value, l));
    }
  }

  // Whoever has ended had a quiet screen.

  predicate EndsQuiet(x: Session) {
    x.alive || Quiet(x.screen)
  }

  ghost predicate EndedQuietly(s: Sys) {
    forall i :: i in s.sessions ==> EndsQuiet(s.sessions[i])
  }

  lemma DecideEnds(x: Session, sites: seq<Site>, n: nat, input: Input, ready: bool)
    requires x.alive && (input == Got(QuitMsg) ==> Quiet(x.screen))
    ensures var (y, e) := Decide(x, sites, n, input, ready);
            EndsQuiet(y) && (e.GiveUp? ==> y.alive)
  {
  }

  lemma TakeEnds(s: Sys, i: nat, input: Input, ready: bool)
    requires EndedQuietly(s) && i in s.sessions && s.sessions[i].alive
    requires input == Got(QuitMsg) ==> Quiet(s.sessions[i].screen)
    ensures EndedQuietly(Take(s, i, input, ready))
  {
    DecideEnds(s.sessions[i], s.sites, s.next, input, ready);
    TakeShape(s, i, input, ready);
    hide Decide;
    assert EndsQuiet(Take(s, i, input, ready).sessions[i]);
    hide Take, EndsQuiet;
  }

  lemma ReceiveEnds(s: Sys, m: nat, ok: bool)
    requires EndedQuietly(s) && m in s.mail && Running(s, s.mail[m].to) && SlipsOf(s, Deliver(m, ok)) == []
    ensures EndedQuietly(Receive(s, m, ok))
  {
    hide Take, Quiet;
    var i, l := s.mail[m].to, s.mail[m].letter;
    if !(IsConnect(l) && !s.sessions[i].screen.Dialing?) {
      assert l == QuitMsg ==> !Busy(s, i);
      TakeEnds(Unmail(s, m), i, Got(l), ok);
    }
  }

  lemma SameEnds(s: Sys, s': Sys)
    requires EndedQuietly(s) && s'.sessions == s.sessions
    ensures EndedQuietly(s')
  {
  }

  lemma PutEnds(s: Sys, s': Sys, i: nat, x: Session)
    requires EndedQuietly(s) && s'.sessions == s.sessions[i := x] && EndsQuiet(x)
    ensures EndedQuietly(s')
  {
    hide EndsQuiet;
  }

  lemma KillEnds(s: Sys, i: nat)
    requires EndedQuietly(s) && i in s.sessions && SlipsOf(s, Kill(i)) == []
    ensures EndsQuiet(s.sessions[i].(alive := false))
  {
    assert EndsQuiet(s.sessions[i]);
  }

  lemma StepEnds(s: Sys, l: Label)
    requires EndedQuietly(s) && SlipsOf(s, l) == [] && Apply(s, l).Some?
    ensures EndedQuietly(Apply(s, l).value)
  {
    hide EndedQuietly, Take, Receive, GoEffect, CleanEffect, AbortEffect, Step, Busy, SlipsOf;
    var s' := Apply(s, l).value;
    match l {
      case Press(i, key) => TakeEnds(s, i, Typed(key), true);
      case Deliver(m, ok) => ReceiveEnds(s, m, ok);
      case Go(d, e) =>
        GoShape(s, d, e);
        SameEnds(s, s');
      case Clean(c) =>
        CleanShape(s, c);
        SameEnds(s, s');
      case Abort(i) =>
        AbortShape(s, i);
        AbortEnds(s, i);
        PutEnds(s, s', i, s'.sessions[i]);
      case Login(force) => PutEnds(s, s', s.next, Session(true, if force then Password(false) else Menu, ""));
      case Kill(i) =>
        KillEnds(s, i);
        PutEnds(s, s', i, s.sessions[i].(alive := false));
      case Disrupt(_) => SameEnds(s, s');
    }
  }

  lemma AbortEnds(s: Sys, i: nat)
    requires EndedQuietly(s) && i in s.sessions && s.sessions[i].screen.Aborting?
    ensures EndsQuiet(AbortEffect(s, i).sessions[i])
  {
    assert EndsQuiet(s.sessions[i]);
  }

  lemma RunsEndQuietly(sites: seq<Site>, run: seq<Label>)
    requires CalmRun(sites, run)
    ensures EndedQuietly(Exec(sites, run).value)
  {
    if run != [] {
      SlipsSplit(sites, run);
      hide EndedQuietly, Apply, SlipsOf;
      var before := run[..|run| - 1];
      RunsEndQuietly(sites, before);
      StepEnds(Exec(sites, before).value, run[|run| - 1]);
    }
  }

  // ------------------------------------------------------------------ what holds of calm and loyal runs

  lemma BusyIsAlive(s: Sys, i: nat)
    requires EndedQuietly(s) && Busy(s, i)
    ensures Alive(s, i)
  {
    assert EndsQuiet(s.sessions[i]);
  }

  lemma NoTokenWhenQuiet(s: Sys, t: Token)
    requires Awaited(s) && Orderly(s) && EndedQuietly(s)
    requires forall i :: Alive(s, i) ==> Quiet(s.sessions[i].screen)
    ensures Hold(s, t) == Nothing
  {
    if IsToken(s, t) {
      TokenMeansBusy(s, t);
      BusyIsAlive(s, SessionOf(s, t).value);
    }
  }

  // Whenever every live session is at the password screen, the menu or the failed-dial screen,
  // the lock is free and the device is closed.
  lemma QuietMeansFree(sites: seq<Site>, run: seq<Label>)
    requires CalmRun(sites, run)
    requires var s := Exec(sites, run).value; forall i :: Alive(s, i) ==> Quiet(s.sessions[i].screen)
    ensures Exec(sites, run).value.lock == "" && Exec(sites, run).value.open == {}
  {
    hide Exec, Orderly, Awaited, Grounded, TokensApart, CleanupsApart, Hold, Quiet, EndedQuietly;
    var s := Exec(sites, run).value;
    RunsStayAwaited(sites, run);
    RunsStayApart(sites, run);
    RunsKeepLockHeld(sites, run);
    RunsEndQuietly(sites, run);
    forall t ensures Hold(s, t) == Nothing {
      NoTokenWhenQuiet(s, t);
    }
  }

  // No CONNECT is ever ignored: each is for a session that waits for it.
  lemma NothingLost(sites: seq<Site>, run: seq<Label>)
    requires LoyalRun(sites, run)
    ensures var s := Exec(sites, run).value;
            && s.lost == map[]
            && forall m :: m in s.mail && IsConnect(s.mail[m].letter) ==> Waits(s, s.mail[m].to)
  {
    RunsStayAwaited(sites, run);
    hide Exec;
    var s := Exec(sites, run).value;
    forall m | m in s.mail && IsConnect(s.mail[m].letter) ensures Waits(s, s.mail[m].to) {
      ConnectAwaited(s, Deliver(m, true));
    }
  }

  // In calm runs, for a session that is alive to take it.
  lemma ConnectsFindTheLiving(sites: seq<Site>, run: seq<Label>, m: nat)
    requires CalmRun(sites, run)
    requires var s := Exec(sites, run).value; m in s.mail && IsConnect(s.mail[m].letter)
    ensures var s := Exec(sites, run).value; Waits(s, s.mail[m].to) && Alive(s, s.mail[m].to)
  {
    NothingLost(sites, run);
    RunsEndQuietly(sites, run);
    hide Exec;
    BusyIsAlive(Exec(sites, run).value, Exec(sites, run).value.mail[m].to);
  }

  // A connected session that has not released.
  ghost predicate HoldsLine(s: Sys, i: nat) {
    && i in s.sessions && s.sessions[i].screen.Connected?
    && (s.sessions[i].screen.cleaning.Some? ==> IsToken(s, OfCleanup(s.sessions[i].screen.cleaning.value)))
  }

  lemma SereneStep(s: Sys, l: Label, sites: seq<Site>, o: Option<Token>)
    requires Serene(s, sites, o) && AllNamed(sites) && Loyal(SlipsOf(s, l)) && Apply(s, l).Some?
    ensures Serene(Apply(s, l).value, sites, NextOwner(o, FlowOf(s, l)))
  {
    GovernedStep(s, l, sites, o);
    AwaitedStep(s, l);
    hide Apply, FlowOf, OneOwner, Orderly, FreshNames, SaneDials, Addressed, Awaited, SlipsOf;
    if FlowOf(s, l).Gains? {
      GainIsTruthful(s, l, sites);
    } else if NextOwner(o, FlowOf(s, l)).Some? {
      TruthfulStep(s, l, sites, o);
    }
  }

  lemma LoyalRunsKeep(sites: seq<Site>, run: seq<Label>) returns (o: Option<Token>)
    requires AllNamed(sites) && LoyalRun(sites, run)
    ensures Serene(Exec(sites, run).value, sites, o)
  {
    if run == [] {
      return None;
    }
    SlipsSplit(sites, run);
    hide Serene, Apply, FlowOf, SlipsOf, AllNamed;
    var before, l := run[..|run| - 1], run[|run| - 1];
    o := LoyalRunsKeep(sites, before);
    SereneStep(Exec(sites, before).value, l, sites, o);
    o := NextOwner(o, FlowOf(Exec(sites, before).value, l));
  }

  // With named sites it is the one the lock is taken for.
  lemma ConnectedNamesTheLock(sites: seq<Site>, run: seq<Label>, i: nat)
    requires AllNamed(sites) && LoyalRun(sites, run) && HoldsLine(Exec(sites, run).value, i)
    ensures Exec(sites, run).value.sessions[i].screen.siteName == Exec(sites, run).value.lock
  {
    var o := LoyalRunsKeep(sites, run);
    hide Exec, Grounded, ClaimsAwaited, DialsNamed, AllNamed, LoyalRun;
    var s := Exec(sites, run).value;
    var scr := s.sessions[i].screen;
    assert IsToken(s, if scr.cleaning.None? then OfSession(i) else OfCleanup(scr.cleaning.value));
    assert CleaningOf(s, i) == scr.cleaning;
  }

  // Without any name there is nothing to confuse.

  ghost predicate NoneNamed(sites: seq<Site>) {
    forall k :: 0 <= k < |sites| ==> sites[k].name == ""
  }

  ghost predicate Anonymous(s: Sys) {
    s.lock == "" && forall i :: i in s.sessions ==> s.sessions[i].site == ""
  }

  lemma SameAnonymous(s: Sys, s': Sys)
    requires Anonymous(s) && s'.sessions == s.sessions && s'.lock == ""
    ensures Anonymous(s')
  {
  }

  lemma PutAnonymous(s: Sys, s': Sys, i: nat, x: Session)
    requires Anonymous(s) && s'.sessions == s.sessions[i := x] && s'.lock == "" && x.site == ""
    ensures Anonymous(s')
  {
  }

  lemma DecideAnonymous(x: Session, sites: seq<Site>, n: nat, input: Input, ready: bool)
    requires NoneNamed(sites) && x.site == ""
    ensures Decide(x, sites, n, input, ready).0.site == ""
  {
  }

  lemma TakeAnonymous(s: Sys, i: nat, input: Input, ready: bool)
    requires Anonymous(s) && NoneNamed(s.sites) && i in s.sessions
    ensures Anonymous(Take(s, i, input, ready))
  {
    DecideAnonymous(s.sessions[i], s.sites, s.next, input, ready);
    TakeShape(s, i, input, ready);
    hide Decide, NoneNamed;
    var s' := Take(s, i, input, ready);
    assert s'.sessions[i].site == "";
    hide Take;
    PutAnonymous(s, s', i, s'.sessions[i]);
  }

  lemma ReceiveAnonymous(s: Sys, m: nat, ok: bool)
    requires Anonymous(s) && NoneNamed(s.sites) && m in s.mail && s.mail[m].to in s.sessions
    ensures Anonymous(Receive(s, m, ok))
  {
    hide Take, NoneNamed;
    if !(IsConnect(s.mail[m].letter) && !s.sessions[s.mail[m].to].screen.Dialing?) {
      TakeAnonymous(Unmail(s, m), s.mail[m].to, Got(s.mail[m].letter), ok);
    }
  }

  lemma GoAnonymous(s: Sys, d: nat, e: Event, sites: seq<Site>)
    requires Anonymous(s) && Grounded(s, sites) && NoneNamed(sites) && Apply(s, Go(d, e)).Some?
    ensures Apply(s, Go(d, e)).value.lock == ""
  {
    DialFacts(s, d, sites);
    assert s.dials[d].site == "";
    hide Grounded, Sane, Listed, NoneNamed;
    GoLock(s, d, e);
  }

  lemma GoLock(s: Sys, d: nat, e: Event)
    requires Apply(s, Go(d, e)).Some?
    ensures Apply(s, Go(d, e)).value.lock in {s.lock, "", s.dials[d].site}
  {
    hide Step;
  }

  lemma AnonymousStep(s: Sys, l: Label, sites: seq<Site>)
    requires Anonymous(s) && Grounded(s, sites) && NoneNamed(sites) && Apply(s, l).Some?
    ensures Anonymous(Apply(s, l).value)
  {
    SitesStay(s, sites);
    hide Anonymous, Grounded, NoneNamed, Take, Receive, GoEffect, CleanEffect, AbortEffect, Step;
    var s' := Apply(s, l).value;
    match l {
      case Press(i, key) => TakeAnonymous(s, i, Typed(key), true);
      case Deliver(m, ok) => ReceiveAnonymous(s, m, ok);
      case Go(d, e) =>
        GoShape(s, d, e);
        GoAnonymous(s, d, e, sites);
        SameAnonymous(s, s');
      case Clean(c) =>
        CleanShape(s, c);
        ReleasesOnly(s, l);
        SameAnonymous(s, s');
      case Abort(i) =>
        AbortShape(s, i);
        ReleasesOnly(s, l);
        HasNoSite(s, i);
        PutAnonymous(s, s', i, s'.sessions[i]);
      case _ => SmallAnonymous(s, l);
    }
  }

  lemma HasNoSite(s: Sys, i: nat)
    requires Anonymous(s) && i in s.sessions
    ensures s.sessions[i].site == ""
  {
  }

  lemma ReleasesOnly(s: Sys, l: Label)
    requires Anonymous(s) && Apply(s, l).Some? && (l.Clean? || l.Abort?)
    ensures Apply(s, l).value.lock == ""
  {
  }

  lemma SmallAnonymous(s: Sys, l: Label)
    requires Anonymous(s) && Apply(s, l).Some? && (l.Login? || l.Kill? || l.Disrupt?)
    ensures Anonymous(Apply(s, l).value)
  {
  }

  lemma RunsStayAnonymous(sites: seq<Site>, run: seq<Label>)
    requires NoneNamed(sites) && Exec(sites, run).Some?
    ensures Anonymous(Exec(sites, run).value)
  {
    if run != [] {
      hide Anonymous, Apply, NoneNamed;
      var before := run[..|run| - 1];
      RunsStayAnonymous(sites, before);
      RunsStayGrounded(sites, before);
      AnonymousStep(Exec(sites, before).value, run[|run| - 1], sites);
    }
  }

  lemma ConnectedNamesNothing(sites: seq<Site>, run: seq<Label>, i: nat)
    requires NoneNamed(sites) && LoyalRun(sites, run) && HoldsLine(Exec(sites, run).value, i)
    ensures Exec(sites, run).value.sessions[i].screen.siteName == Exec(sites, run).value.lock
  {
    RunsStayAnonymous(sites, run);
    RunsStayAwaited(sites, run);
    hide Exec, LoyalRun, ClaimsAwaited, DialsNamed, NoneNamed;
    SessionSound(Exec(sites, run).value, i);
  }
}
