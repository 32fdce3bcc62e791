/**
 Each clause of what disturbs a run is needed, by runs with that one slip and no other.  For every
 non-empty list of named sites and every kind of slip, every live session shows a quiet screen and
 the lock is taken.  After abandoning a dial, or a late error, a CONNECT is ignored, and with two
 names a connected session is not the one the lock names; after a kill or a late quit a CONNECT is
 for a session that has ended.
 */
module LostLock {
  import opened Wrappers
  import opened DialProtocol
  import opened Sites
  import opened Ownership
  import opened Tokens
  import opened Exclusion
  import opened Stranding
  import opened CalmRuns

  // The run reaches `s` with these slips.
  ghost predicate Goes(sites: seq<Site>, run: seq<Label>, s: Sys, slips: seq<Slip>) {
    Exec(sites, run) == Some(s) && Slips(sites, run) == slips
  }

  lemma OneMore(sites: seq<Site>, run: seq<Label>, s: Sys, slips: seq<Slip>, l: Label, s': Sys)
    returns (run': seq<Label>)
    requires Goes(sites, run, s, slips) && Apply(s, l) == Some(s') && SlipsOf(s, l) == []
    ensures Goes(sites, run', s', slips)
  {
    hide Apply, SlipsOf;
    run' := run + [l];
    assert run'[..|run'| - 1] == run;
  }

  lemma OneSlip(sites: seq<Site>, run: seq<Label>, s: Sys, l: Label, s': Sys, slip: Slip) returns (run': seq<Label>)
    requires Goes(sites, run, s, []) && Apply(s, l) == Some(s') && SlipsOf(s, l) == [slip]
    ensures Goes(sites, run', s', [slip])
  {
    hide Apply, SlipsOf;
    run' := run + [l];
    assert run'[..|run'| - 1] == run;
  }

  // An event of a dial goroutine that concerns nobody else.
  predicate Private(e: Event) {
    !e.Acquire? && !e.Open? && !e.Close? && !e.Release? && !e.Return?
  }

  lemma PrivateStep(sites: seq<Site>, run: seq<Label>, s: Sys, slips: seq<Slip>, d: nat, e: Event, pc: Pc)
    returns (run': seq<Label>)
    requires Goes(sites, run, s, slips) && d in s.dials && Private(e)
    requires Step(s.dials[d].cfg, s.dials[d].pc, e) == Some(pc)
    ensures Goes(sites, run', SetPc(s, d, pc), slips)
  {
    hide Goes, Step;
    run' := OneMore(sites, run, s, slips, Go(d, e), SetPc(s, d, pc));
  }

  function FirstDial(sites: seq<Site>, k: nat, pc: Pc, handle: nat): Goroutine
    requires k < |sites|
  {
    Goroutine(0, sites[k].name, sites[k].modemInit != [], pc, handle)
  }

  // The first session has asked for site `k` and its dial goroutine is about to start.
  function AfterRequest(sites: seq<Site>, k: nat): Sys
    requires k < |sites|
  {
    Initial(sites).(
      sessions := map[0 := Session(true, Dialing(false), sites[k].name)],
      dials := map[2 := FirstDial(sites, k, Start, 0)],
      next := 3)
  }

  lemma Requested(sites: seq<Site>, k: nat) returns (run: seq<Label>)
    requires k < |sites|
    ensures Goes(sites, run, AfterRequest(sites, k), [])
  {
    var x := Session(true, Menu, "");
    var s1 := Initial(sites).(sessions := map[0 := x], next := 1);
    var s2 := Post(s1, 0, DialRequest(k));
    assert map[][0 := x] == s1.sessions && map[0 := x][0 := x] == s1.sessions;
    run := OneMore(sites, [], Initial(sites), [], Login(false), s1);
    run := OneMore(sites, run, s1, [], Press(0, Enter(Some(k), true)), s2);
    run := Delivered(sites, run, k, s1, s2);
  }

  lemma Delivered(sites: seq<Site>, run0: seq<Label>, k: nat, s1: Sys, s2: Sys) returns (run: seq<Label>)
    requires k < |sites| && s1 == Initial(sites).(sessions := map[0 := Session(true, Menu, "")], next := 1)
    requires s2 == Post(s1, 0, DialRequest(k)) && Goes(sites, run0, s2, [])
    ensures Goes(sites, run, AfterRequest(sites, k), [])
  {
    var s3 := AfterRequest(sites, k);
    assert s2.mail - {1} == map[];
    assert s2.sessions[0 := s3.sessions[0]] == s3.sessions;
    run := OneMore(sites, run0, s2, [], Deliver(1, true), s3);
  }

  // The dial has connected: the open handle is 3.
  function AfterDial(sites: seq<Site>, k: nat): Sys
    requires k < |sites|
  {
    AfterRequest(sites, k).(
      dials := map[2 := FirstDial(sites, k, Online, 3)], lock := sites[k].name, open := {3}, next := 4)
  }

  function AfterAcquire(sites: seq<Site>, k: nat): Sys
    requires k < |sites|
  {
    AfterRequest(sites, k).(dials := map[2 := FirstDial(sites, k, NextAttempt(1), 0)], lock := sites[k].name)
  }

  lemma AcquiresLock(sites: seq<Site>, k: nat) returns (run: seq<Label>)
    requires k < |sites|
    ensures Goes(sites, run, AfterAcquire(sites, k), [])
  {
    run := Requested(sites, k);
    hide Goes;
    var s, s1 := AfterRequest(sites, k), AfterAcquire(sites, k);
    assert s.dials[2 := s1.dials[2]] == s1.dials;
    run := OneMore(sites, run, s, [], Go(2, Acquire(true)), s1);
  }

  lemma OpensDevice(sites: seq<Site>, k: nat) returns (run: seq<Label>)
    requires k < |sites|
    ensures Goes(sites, run, AfterDial(sites, k).(dials := map[2 := FirstDial(sites, k, Opened(1), 3)]), [])
  {
    run := AcquiresLock(sites, k);
    hide Goes;
    var s1 := AfterAcquire(sites, k);
    var s2 := AfterDial(sites, k).(dials := map[2 := FirstDial(sites, k, Opened(1), 3)]);
    assert s1.dials[2 := s2.dials[2]] == s2.dials && s1.open + {3} == {3};
    run := OneMore(sites, run, s1, [], Go(2, Open(true)), s2);
  }

  lemma Dials(sites: seq<Site>, k: nat) returns (run: seq<Label>)
    requires k < |sites|
    ensures Goes(sites, run, AfterDial(sites, k), [])
  {
    run := OpensDevice(sites, k);
    hide Goes;
    var s := AfterDial(sites, k).(dials := map[2 := FirstDial(sites, k, Opened(1), 3)]);
    assert SetPc(s, 2, Online) == AfterDial(sites, k);
    run := Initialises(sites, run, s, [], 2);
  }

  lemma Configures(sites: seq<Site>, run0: seq<Label>, s: Sys, slips: seq<Slip>, d: nat) returns (run: seq<Label>)
    requires Goes(sites, run0, s, slips) && d in s.dials && s.dials[d].pc == Opened(1) && s.dials[d].cfg
    ensures Goes(sites, run, SetPc(s, d, Ready(1)), slips)
  {
    hide Goes;
    run := PrivateStep(sites, run0, s, slips, d, Init(true), Initialised(1));
    var s1 := SetPc(s, d, Initialised(1));
    run := PrivateStep(sites, run, s1, slips, d, Configure(true), Ready(1));
    assert SetPc(s1, d, Ready(1)) == SetPc(s, d, Ready(1));
  }

  lemma Initialises(sites: seq<Site>, run0: seq<Label>, s: Sys, slips: seq<Slip>, d: nat) returns (run: seq<Label>)
    requires Goes(sites, run0, s, slips) && d in s.dials && s.dials[d].pc == Opened(1)
    ensures Goes(sites, run, SetPc(s, d, Online), slips)
  {
    hide Goes;
    if s.dials[d].cfg {
      run := Configures(sites, run0, s, slips, d);
    } else {
      run := PrivateStep(sites, run0, s, slips, d, Init(true), Ready(1));
    }
    var s2 := SetPc(s, d, Ready(1));
    run := PrivateStep(sites, run, s2, slips, d, Dial(Some(Connect)), Online);
    assert SetPc(s2, d, Online) == SetPc(s, d, Online);
  }

  // The CONNECT result is message 4.
  function AfterConnect(sites: seq<Site>, k: nat): Sys
    requires k < |sites|
  {
    AfterDial(sites, k).(
      dials := map[2 := FirstDial(sites, k, Done(HANDED_OVER), 3)],
      mail := map[4 := Mail(0, Answer(HANDED_OVER, 3))], next := 5)
  }

  lemma Connects(sites: seq<Site>, k: nat) returns (run: seq<Label>)
    requires k < |sites|
    ensures Goes(sites, run, AfterConnect(sites, k), [])
  {
    run := Dials(sites, k);
    hide Goes;
    var s, s' := AfterDial(sites, k), AfterConnect(sites, k);
    assert s.dials[2 := s'.dials[2]] == s'.dials;
    assert map[][4 := s'.mail[4]] == s'.mail;
    run := OneMore(sites, run, s, [], Go(2, Return(HANDED_OVER)), s');
  }

  // Every live session shows a quiet screen, and the lock is taken.
  ghost predicate Stuck(s: Sys) {
    s.lock != "" && forall i :: Alive(s, i) ==> Quiet(s.sessions[i].screen)
  }

  // ctrl+c while the goroutine runs, and the CONNECT that follows is ignored.
  lemma AbandonedDialLosesLock(sites: seq<Site>, k: nat) returns (run: seq<Label>, s: Sys)
    requires k < |sites| && AllNamed(sites)
    ensures Goes(sites, run, s, [Abandons]) && Stuck(s) && Stranded(s, OfLost(4))
  {
    run := Connects(sites, k);
    hide Goes;
    var s0 := AfterConnect(sites, k);
    var x := Session(true, Menu, sites[k].name);
    var s1 := s0.(sessions := map[0 := x]);
    assert s0.sessions[0 := x] == s1.sessions;
    run := OneSlip(sites, run, s0, Press(0, CtrlC), s1, Abandons);
    s := s1.(mail := s1.mail - {4}, lost := map[][4 := 3]);
    run := OneMore(sites, run, s1, [Abandons], Deliver(4, true), s);
  }

  // The CONNECT has arrived: the first session is connected.
  function AfterArrival(sites: seq<Site>, k: nat): Sys
    requires k < |sites|
  {
    AfterConnect(sites, k).(
      mail := map[], sessions := map[0 := Session(true, Connected(sites[k].name, 3, None), sites[k].name)])
  }

  lemma Arrives(sites: seq<Site>, k: nat) returns (run: seq<Label>)
    requires k < |sites|
    ensures Goes(sites, run, AfterArrival(sites, k), [])
  {
    run := Connects(sites, k);
    hide Goes;
    var s, s' := AfterConnect(sites, k), AfterArrival(sites, k);
    assert s.mail - {4} == map[] && s.sessions[0 := s'.sessions[0]] == s'.sessions;
    run := OneMore(sites, run, s, [], Deliver(4, true), s');
  }

  // Killing a connected session before it has issued its cleanup.
  lemma KilledSessionLosesLock(sites: seq<Site>, k: nat) returns (run: seq<Label>, s: Sys)
    requires k < |sites| && AllNamed(sites)
    ensures Goes(sites, run, s, [Kills]) && Stuck(s) && Stranded(s, OfSession(0))
  {
    run := Arrives(sites, k);
    hide Goes;
    var s0 := AfterArrival(sites, k);
    s := Put(s0, 0, s0.sessions[0].(alive := false));
    run := OneSlip(sites, run, s0, Kill(0), s, Kills);
  }

  // The first session is at the menu, and the error of its second password submission is message 2.
  function AfterPassword(sites: seq<Site>): Sys {
    Initial(sites).(mail := map[2 := Mail(0, Submitted(false))],
                    sessions := map[0 := Session(true, Menu, "")], next := 3)
  }

  lemma TabsToConfirm(sites: seq<Site>) returns (run: seq<Label>)
    ensures Goes(sites, run, Initial(sites).(sessions := map[0 := Session(true, Password(true), "")], next := 1), [])
  {
    var s0 := Initial(sites).(sessions := map[0 := Session(true, Password(false), "")], next := 1);
    var s1 := s0.(sessions := map[0 := Session(true, Password(true), "")]);
    assert map[][0 := s0.sessions[0]] == s0.sessions && s0.sessions[0 := s1.sessions[0]] == s1.sessions;
    run := OneMore(sites, [], Initial(sites), [], Login(true), s0);
    hide Goes;
    run := OneMore(sites, run, s0, [], Press(0, Tab), s1);
  }

  lemma SubmitsTwice(sites: seq<Site>) returns (run: seq<Label>, s: Sys)
    ensures Goes(sites, run, s, [])
    ensures s == Initial(sites).(sessions := map[0 := Session(true, Password(true), "")], next := 3,
                                 mail := map[1 := Mail(0, Submitted(true)), 2 := Mail(0, Submitted(false))])
  {
    run := TabsToConfirm(sites);
    hide Goes;
    var s1 := Initial(sites).(sessions := map[0 := Session(true, Password(true), "")], next := 1);
    assert s1.sessions[0 := s1.sessions[0]] == s1.sessions;
    var s2 := Post(s1, 0, Submitted(true));
    run := OneMore(sites, run, s1, [], Press(0, Enter(None, true)), s2);
    s := Post(s2, 0, Submitted(false));
    run := OneMore(sites, run, s2, [], Press(0, Enter(None, false)), s);
  }

  lemma PasswordAccepted(sites: seq<Site>) returns (run: seq<Label>)
    ensures Goes(sites, run, AfterPassword(sites), [])
  {
    var s;
    run, s := SubmitsTwice(sites);
    hide Goes;
    var s' := AfterPassword(sites);
    assert s.mail - {1} == s'.mail && s.sessions[0 := s'.sessions[0]] == s'.sessions;
    run := OneMore(sites, run, s, [], Deliver(1, true), s');
  }

  // The dial has the lock, and the error is still on its way.
  function AfterLateRequest(sites: seq<Site>, k: nat): Sys
    requires k < |sites|
  {
    AfterPassword(sites).(
      sessions := map[0 := Session(true, Dialing(false), sites[k].name)],
      dials := map[4 := FirstDial(sites, k, NextAttempt(1), 0)], lock := sites[k].name, next := 5)
  }

  lemma LateRequest(sites: seq<Site>, k: nat) returns (run: seq<Label>)
    requires k < |sites|
    ensures Goes(sites, run, AfterLateRequest(sites, k), [])
  {
    run := PasswordAccepted(sites);
    hide Goes;
    var s := AfterPassword(sites);
    assert s.sessions[0 := s.sessions[0]] == s.sessions;
    var s1 := Post(s, 0, DialRequest(k));
    run := OneMore(sites, run, s, [], Press(0, Enter(Some(k), true)), s1);
    var s3 := AfterLateRequest(sites, k);
    var s2 := s3.(dials := map[4 := FirstDial(sites, k, Start, 0)], lock := "");
    assert s1.mail - {3} == s2.mail && s1.sessions[0 := s2.sessions[0]] == s2.sessions;
    assert map[][4 := s2.dials[4]] == s2.dials && s2.dials[4 := s3.dials[4]] == s3.dials;
    run := OneMore(sites, run, s1, [], Deliver(3, true), s2);
    run := OneMore(sites, run, s2, [], Go(4, Acquire(true)), s3);
  }

  function AfterLateError(sites: seq<Site>, k: nat): Sys
    requires k < |sites|
  {
    AfterLateRequest(sites, k).(
      mail := map[], sessions := map[0 := Session(true, Dialing(true), sites[k].name)])
  }

  lemma LateErrorStrikes(sites: seq<Site>, k: nat) returns (run: seq<Label>)
    requires k < |sites|
    ensures Goes(sites, run, AfterLateError(sites, k), [LateError])
  {
    run := LateRequest(sites, k);
    hide Goes;
    var s, s' := AfterLateRequest(sites, k), AfterLateError(sites, k);
    assert s.sessions[0 := s'.sessions[0]] == s'.sessions && s.mail - {2} == s'.mail;
    run := OneSlip(sites, run, s, Deliver(2, true), s', LateError);
  }

  // The late error marks the dial as done: the failed-dial screen shows, and Enter would leave it,
  // while the goroutine holds the lock.
  lemma LatePasswordErrorHidesDial(sites: seq<Site>, k: nat) returns (run: seq<Label>, s: Sys)
    requires k < |sites| && AllNamed(sites)
    ensures Goes(sites, run, s, [LateError]) && Stuck(s) && IsToken(s, OfDial(4))
    ensures s.sessions == map[0 := Session(true, Dialing(true), sites[k].name)]
  {
    run := LateErrorStrikes(sites, k);
    s := AfterLateError(sites, k);
  }

  // ------------------------------------------------------------------ a late quit

  // A new session has asked to quit and, before the quit message is taken, for site `k`; the dial
  // has the lock.
  function AfterQuitRequest(sites: seq<Site>, k: nat): Sys
    requires k < |sites|
  {
    Initial(sites).(
      sessions := map[0 := Session(true, Dialing(false), sites[k].name)], mail := map[1 := Mail(0, QuitMsg)],
      dials := map[3 := FirstDial(sites, k, NextAttempt(1), 0)], lock := sites[k].name, next := 4)
  }

  lemma QuitAsked(sites: seq<Site>, k: nat) returns (run: seq<Label>, s: Sys)
    ensures Goes(sites, run, s, [])
    ensures s == Initial(sites).(sessions := map[0 := Session(true, Menu, "")], next := 3,
                                 mail := map[1 := Mail(0, QuitMsg), 2 := Mail(0, DialRequest(k))])
  {
    var x := Session(true, Menu, "");
    var s0 := Initial(sites).(sessions := map[0 := x], next := 1);
    assert map[][0 := x] == s0.sessions && s0.sessions[0 := x] == s0.sessions;
    run := OneMore(sites, [], Initial(sites), [], Login(false), s0);
    hide Goes;
    var s1 := Post(s0, 0, QuitMsg);
    run := OneMore(sites, run, s0, [], Press(0, CtrlC), s1);
    s := Post(s1, 0, DialRequest(k));
    run := OneMore(sites, run, s1, [], Press(0, Enter(Some(k), true)), s);
  }

  lemma QuitRequest(sites: seq<Site>, k: nat) returns (run: seq<Label>)
    requires k < |sites|
    ensures Goes(sites, run, AfterQuitRequest(sites, k), [])
  {
    var s;
    run, s := QuitAsked(sites, k);
    hide Goes;
    var s2 := AfterQuitRequest(sites, k);
    var s1 := s2.(dials := map[3 := FirstDial(sites, k, Start, 0)], lock := "");
    assert s.mail - {2} == s1.mail && s.sessions[0 := s1.sessions[0]] == s1.sessions;
    assert map[][3 := s1.dials[3]] == s1.dials && s1.dials[3 := s2.dials[3]] == s2.dials;
    run := OneMore(sites, run, s, [], Deliver(2, true), s1);
    run := OneMore(sites, run, s1, [], Go(3, Acquire(true)), s2);
  }

  // The quit message ends a session that is dialing by then.
  lemma LateQuitLosesLock(sites: seq<Site>, k: nat) returns (run: seq<Label>, s: Sys)
    requires k < |sites| && AllNamed(sites)
    ensures Goes(sites, run, s, [LateQuit]) && Stuck(s) && IsToken(s, OfDial(3))
  {
    run := QuitRequest(sites, k);
    hide Goes;
    var s0 := AfterQuitRequest(sites, k);
    s := Put(Unmail(s0, 1), 0, s0.sessions[0].(alive := false));
    run := OneSlip(sites, run, s0, Deliver(1, true), s, LateQuit);
  }

  lemma EverySlipIsNeeded(sites: seq<Site>, slip: Slip) returns (run: seq<Label>)
    requires AllNamed(sites) && sites != []
    ensures Exec(sites, run).Some? && Slips(sites, run) == [slip] && Stuck(Exec(sites, run).value)
  {
    hide Stuck, Exec, Slips;
    var s;
    match slip {
      case Abandons => run, s := AbandonedDialLosesLock(sites, 0);
      case Kills => run, s := KilledSessionLosesLock(sites, 0);
      case LateError => run, s := LatePasswordErrorHidesDial(sites, 0);
      case LateQuit => run, s := LateQuitLosesLock(sites, 0);
    }
  }

  // ------------------------------------------------------------------ a session that has ended

  // A CONNECT is on its way to a session that was killed.
  lemma KilledWhileDialing(sites: seq<Site>, k: nat) returns (run: seq<Label>, s: Sys)
    requires k < |sites|
    ensures Goes(sites, run, s, [Kills])
    ensures 4 in s.mail && IsConnect(s.mail[4].letter) && !Alive(s, s.mail[4].to)
  {
    run := Connects(sites, k);
    hide Goes;
    var s0 := AfterConnect(sites, k);
    s := Put(s0, 0, s0.sessions[0].(alive := false));
    run := OneSlip(sites, run, s0, Kill(0), s, Kills);
  }

  // And to one that has quit.
  lemma QuitWhileDialing(sites: seq<Site>, k: nat) returns (run: seq<Label>, s: Sys)
    requires k < |sites|
    ensures Goes(sites, run, s, [LateQuit])
    ensures 5 in s.mail && IsConnect(s.mail[5].letter) && !Alive(s, s.mail[5].to)
  {
    run := QuitRequest(sites, k);
    hide Goes;
    var s0 := AfterQuitRequest(sites, k);
    run := DialsOn(sites, run, s0, [], 3);
    var s1 := AfterDialling(s0, 3);
    s := Put(Unmail(s1, 1), 0, s1.sessions[0].(alive := false));
    run := OneSlip(sites, run, s1, Deliver(1, true), s, LateQuit);
  }

  // ------------------------------------------------------------------ a session that has walked away

  // A dial past Acquire goes on to CONNECT, and returns it.
  function AfterDialling(s: Sys, d: nat): Sys
    requires d in s.dials
  {
    var g := s.dials[d].(pc := Done(HANDED_OVER), handle := s.next);
    Post(s.(dials := s.dials[d := g], open := s.open + {s.next}, next := s.next + 1), g.owner,
         Answer(HANDED_OVER, s.next))
  }

  function AfterOpening(s: Sys, d: nat): Sys
    requires d in s.dials
  {
    s.(dials := s.dials[d := s.dials[d].(pc := Opened(1), handle := s.next)], open := s.open + {s.next},
       next := s.next + 1)
  }

  lemma Opens(sites: seq<Site>, run0: seq<Label>, s: Sys, slips: seq<Slip>, d: nat) returns (run: seq<Label>)
    requires Goes(sites, run0, s, slips) && d in s.dials && s.dials[d].pc == NextAttempt(1)
    ensures Goes(sites, run, AfterOpening(s, d), slips)
  {
    hide Goes;
    run := OneMore(sites, run0, s, slips, Go(d, Open(true)), AfterOpening(s, d));
  }

  lemma Returns(sites: seq<Site>, run0: seq<Label>, s: Sys, slips: seq<Slip>, d: nat) returns (run: seq<Label>)
    requires d in s.dials && Goes(sites, run0, SetPc(AfterOpening(s, d), d, Online), slips)
    ensures Goes(sites, run, AfterDialling(s, d), slips)
  {
    hide Goes;
    var s2 := SetPc(AfterOpening(s, d), d, Online);
    assert SetPc(s2, d, Done(HANDED_OVER)).dials == AfterDialling(s, d).dials;
    run := OneMore(sites, run0, s2, slips, Go(d, Return(HANDED_OVER)), AfterDialling(s, d));
  }

  lemma DialsOn(sites: seq<Site>, run0: seq<Label>, s: Sys, slips: seq<Slip>, d: nat) returns (run: seq<Label>)
    requires Goes(sites, run0, s, slips) && d in s.dials && s.dials[d].pc == NextAttempt(1)
    ensures Goes(sites, run, AfterDialling(s, d), slips)
  {
    hide Goes;
    run := Opens(sites, run0, s, slips, d);
    run := Initialises(sites, run, AfterOpening(s, d), slips, d);
    run := Returns(sites, run, s, slips, d);
  }

  // A live session at the menu asks for site `j`.
  function AfterAsking(s: Sys, i: nat, j: nat): Sys
    requires i in s.sessions && j < |s.sites|
  {
    StartDial(s.(next := s.next + 1), i, s.sessions[i].(screen := Dialing(false), site := s.sites[j].name), s.sites[j])
  }

  lemma Asks(sites: seq<Site>, run0: seq<Label>, s: Sys, slips: seq<Slip>, i: nat, j: nat) returns (run: seq<Label>)
    requires Goes(sites, run0, s, slips) && j < |s.sites| && s.next !in s.mail
    requires i in s.sessions && s.sessions[i].alive && s.sessions[i].screen.Menu?
    ensures Goes(sites, run, AfterAsking(s, i, j), slips)
  {
    hide Goes;
    var s1 := Post(Put(s, i, s.sessions[i]), i, DialRequest(j));
    run := OneMore(sites, run0, s, slips, Press(i, Enter(Some(j), true)), s1);
    assert s1.mail - {s.next} == s.mail && s1.sessions == s.sessions;
    run := OneMore(sites, run, s1, slips, Deliver(s.next, true), AfterAsking(s, i, j));
  }

  // Back at the menu after the late error, while the dial goes on.
  function AfterLeaving(sites: seq<Site>, k: nat): Sys
    requires k < |sites|
  {
    AfterLateError(sites, k).(sessions := map[0 := Session(true, Menu, sites[k].name)])
  }

  lemma LeavesAfterError(sites: seq<Site>, k: nat) returns (run: seq<Label>)
    requires k < |sites|
    ensures Goes(sites, run, AfterLeaving(sites, k), [LateError])
  {
    run := LateErrorStrikes(sites, k);
    hide Goes;
    var s, s' := AfterLateError(sites, k), AfterLeaving(sites, k);
    assert s.sessions[0 := s'.sessions[0]] == s'.sessions;
    run := OneMore(sites, run, s, [LateError], Press(0, Enter(None, true)), s');
  }

  // A CONNECT is ignored after a late error, too.
  lemma LateErrorIgnoresConnect(sites: seq<Site>, k: nat) returns (run: seq<Label>, s: Sys)
    requires k < |sites|
    ensures Goes(sites, run, s, [LateError]) && s.lost != map[]
  {
    run := LeavesAfterError(sites, k);
    hide Goes;
    var s0 := AfterLeaving(sites, k);
    run := DialsOn(sites, run, s0, [LateError], 4);
    run, s := IgnoresConnect(sites, run, AfterDialling(s0, 4), [LateError], 6, 5);
  }

  lemma IgnoresConnect(sites: seq<Site>, run0: seq<Label>, s: Sys, slips: seq<Slip>, m: nat, h: nat)
    returns (run: seq<Label>, s': Sys)
    requires Goes(sites, run0, s, slips) && m in s.mail && s.mail[m] == Mail(0, Answer(HANDED_OVER, h))
    requires 0 in s.sessions && s.sessions[0].alive && s.sessions[0].screen.Menu?
    ensures Goes(sites, run, s', slips) && s'.lost != map[]
  {
    hide Goes;
    s' := Lose(s, m, h);
    assert m in s'.lost;
    run := OneMore(sites, run0, s, slips, Deliver(m, true), s');
  }

  // A session that holds the line and shows another name than the lock.
  ghost predicate Misnamed(s: Sys, i: nat) {
    HoldsLine(s, i) && s.sessions[i].screen.siteName != s.lock
  }

  // A session that is dialing site `name` takes a CONNECT while the lock names another.
  lemma TakesWrongConnect(sites: seq<Site>, run0: seq<Label>, s: Sys, slips: seq<Slip>, m: nat, h: nat)
    returns (run: seq<Label>, s': Sys)
    requires Goes(sites, run0, s, slips) && m in s.mail && s.mail[m] == Mail(0, Answer(HANDED_OVER, h))
    requires 0 in s.sessions && s.sessions[0].alive && s.sessions[0].screen == Dialing(false)
    requires s.lock != s.sessions[0].site
    ensures Goes(sites, run, s', slips) && Misnamed(s', 0)
  {
    hide Goes;
    s' := Put(Unmail(s, m), 0, s.sessions[0].(screen := Connected(s.sessions[0].site, h, None)));
    run := OneMore(sites, run0, s, slips, Deliver(m, true), s');
  }

  // The session asks for another site and gets the CONNECT of the first.
  lemma AbandonedDialMisnames(sites: seq<Site>, k: nat, j: nat) returns (run: seq<Label>, s: Sys)
    requires k < |sites| && j < |sites| && sites[k].name != sites[j].name
    ensures Goes(sites, run, s, [Abandons]) && Misnamed(s, 0)
  {
    run := Connects(sites, k);
    hide Goes;
    var s0 := AfterConnect(sites, k);
    var s1 := s0.(sessions := map[0 := Session(true, Menu, sites[k].name)]);
    assert s0.sessions[0 := s1.sessions[0]] == s1.sessions;
    run := OneSlip(sites, run, s0, Press(0, CtrlC), s1, Abandons);
    run := Asks(sites, run, s1, [Abandons], 0, j);
    run, s := TakesWrongConnect(sites, run, AfterAsking(s1, 0, j), [Abandons], 4, 3);
  }

  lemma LateErrorMisnames(sites: seq<Site>, k: nat, j: nat) returns (run: seq<Label>, s: Sys)
    requires k < |sites| && j < |sites| && sites[k].name != sites[j].name
    ensures Goes(sites, run, s, [LateError]) && Misnamed(s, 0)
  {
    run := LeavesAfterError(sites, k);
    hide Goes;
    var s0 := AfterLeaving(sites, k);
    run := Asks(sites, run, s0, [LateError], 0, j);
    var s1 := AfterAsking(s0, 0, j);
    run := DialsOn(sites, run, s1, [LateError], 4);
    run, s := TakesWrongConnect(sites, run, AfterDialling(s1, 4), [LateError], 8, 7);
  }

  // ------------------------------------------------------------------ names

  // While a session is connected to a site without a name, another acquires the lock.
  lemma MixedNamesMisname(sites: seq<Site>, k: nat, j: nat) returns (run: seq<Label>, s: Sys)
    requires k < |sites| && j < |sites| && sites[k].name == "" && sites[j].name != ""
    ensures Goes(sites, run, s, []) && Misnamed(s, 0)
  {
    run := Arrives(sites, k);
    hide Goes;
    var s0 := AfterArrival(sites, k);
    var s1 := Put(s0, 5, Session(true, Menu, "")).(next := 6);
    run := OneMore(sites, run, s0, [], Login(false), s1);
    run := Asks(sites, run, s1, [], 5, j);
    run, s := Acquires(sites, run, AfterAsking(s1, 5, j), 7);
  }

  lemma Acquires(sites: seq<Site>, run0: seq<Label>, s: Sys, d: nat) returns (run: seq<Label>, s': Sys)
    requires Goes(sites, run0, s, []) && d in s.dials && s.dials[d].pc.Start? && s.dials[d].site != "" && s.lock == ""
    requires HoldsLine(s, 0) && s.sessions[0].screen.siteName == "" && s.sessions[0].screen.cleaning.None?
    ensures Goes(sites, run, s', []) && Misnamed(s', 0)
  {
    hide Goes;
    s' := SetPc(s, d, NextAttempt(1)).(lock := s.dials[d].site);
    run := OneMore(sites, run0, s, [], Go(d, Acquire(true)), s');
  }

  ghost predicate MisnamedIn(sites: seq<Site>, run: seq<Label>, i: nat) {
    LoyalRun(sites, run) && Misnamed(Exec(sites, run).value, i)
  }

  // In loyal runs a connected session is the one the lock names iff all sites have a name, or none.
  lemma ConnectedNamesTheLockIff(sites: seq<Site>)
    ensures (forall run, i: nat :: !MisnamedIn(sites, run, i)) <==> AllNamed(sites) || NoneNamed(sites)
  {
    hide Exec, Slips, HoldsLine;
    if AllNamed(sites) || NoneNamed(sites) {
      forall run, i: nat ensures !MisnamedIn(sites, run, i) {
        NeverMisnamed(sites, run, i);
      }
    } else {
      var k :| 0 <= k < |sites| && sites[k].name == "";
      var j :| 0 <= j < |sites| && sites[j].name != "";
      var run, s := MixedNamesMisname(sites, k, j);
      assert Loyal([]) && MisnamedIn(sites, run, 0);
    }
  }

  lemma NeverMisnamed(sites: seq<Site>, run: seq<Label>, i: nat)
    requires AllNamed(sites) || NoneNamed(sites)
    ensures !MisnamedIn(sites, run, i)
  {
    hide Exec, Slips, HoldsLine;
    if LoyalRun(sites, run) && HoldsLine(Exec(sites, run).value, i) {
      if AllNamed(sites) {
        ConnectedNamesTheLock(sites, run, i);
      } else {
        ConnectedNamesNothing(sites, run, i);
      }
    }
  }
}
