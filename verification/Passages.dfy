/**
 How sessions get from screen to screen, told from the steps of a run: a forced password change is
 made before any other screen shows, and nobody waits for a dial in vain.
 */
module Passages {
  import opened Wrappers
  import opened DialProtocol
  import opened Sites
  import opened Ownership
  import opened Grounds
  import opened Cleanups
  import opened Stranding
  import opened CalmRuns

  // The state before step k of a run.
  ghost predicate Before(sites: seq<Site>, run: seq<Label>, k: nat, s: Sys) {
    k < |run| && Exec(sites, run[..k]) == Some(s)
  }

  // Step k logs in session i, which has to change its password.
  ghost predicate ForcedLogin(sites: seq<Site>, run: seq<Label>, k: nat, i: nat) {
    exists s :: Before(sites, run, k, s) && run[k] == Login(true) && s.next == i
  }

  // At step j session i presses Enter on the second field, and the password is accepted: that is
  // message m.
  ghost predicate Accepts(sites: seq<Site>, run: seq<Label>, j: nat, i: nat, m: nat) {
    exists s ::
      && Before(sites, run, j, s) && s.next == m
      && i in s.sessions && s.sessions[i].screen == Password(true)
      && run[j].Press? && run[j].i == i && run[j].key.Enter? && run[j].key.accepted
  }

  // At step k session i is told so.
  ghost predicate IsTold(sites: seq<Site>, run: seq<Label>, k: nat, i: nat, m: nat) {
    exists s ::
      && Before(sites, run, k, s) && m in s.mail && s.mail[m] == Mail(i, Submitted(true))
      && run[k].Deliver? && run[k].m == m
  }

  lemma BeforeLonger(sites: seq<Site>, run: seq<Label>, l: Label, k: nat, s: Sys)
    requires Before(sites, run, k, s)
    ensures Before(sites, run + [l], k, s) && (run + [l])[k] == run[k]
  {
    assert (run + [l])[..k] == run[..k];
  }

  // ------------------------------------------------------------------ single steps

  lemma TakePosts(s: Sys, i: nat, input: Input, ready: bool, m: nat)
    requires i in s.sessions && m in Take(s, i, input, ready).mail && m !in s.mail
    requires Take(s, i, input, ready).mail[m].letter == Submitted(true)
    ensures m == s.next && Take(s, i, input, ready).mail[m].to == i && s.sessions[i].screen == Password(true)
    ensures input.Typed? && input.key.Enter? && input.key.accepted
  {
  }

  // Only an accepted Enter on the second field posts an acceptance.
  lemma OnlyEnterAccepts(s: Sys, l: Label, m: nat)
    requires FreshNames(s) && Apply(s, l).Some? && m in Apply(s, l).value.mail
    requires Apply(s, l).value.mail[m].letter == Submitted(true) && m !in s.mail
    ensures l.Press? && l.key.Enter? && l.key.accepted && m == s.next && Apply(s, l).value.mail[m].to == l.i
    ensures l.i in s.sessions && s.sessions[l.i].screen == Password(true)
  {
    hide FreshNames, Take, Receive, GoEffect, CleanEffect, AbortEffect, Step;
    match l {
      case Press(i, key) => TakePosts(s, i, Typed(key), true, m);
      case Deliver(n, ok) => ReceivePosts(s, n, ok, m);
      case Go(d, e) => GoShape(s, d, e);
      case Clean(c) => CleanShape(s, c);
      case Abort(i) => AbortShape(s, i);
      case _ => SmallShape(s, l);
    }
  }

  lemma ReceivePosts(s: Sys, n: nat, ok: bool, m: nat)
    requires n in s.mail && s.mail[n].to in s.sessions && m in Receive(s, n, ok).mail && m !in s.mail
    ensures Receive(s, n, ok).mail[m].letter != Submitted(true)
  {
    hide Take;
    if !(IsConnect(s.mail[n].letter) && !s.sessions[s.mail[n].to].screen.Dialing?) {
      var i, input := s.mail[n].to, Got(s.mail[n].letter);
      if Take(Unmail(s, n), i, input, ok).mail[m].letter == Submitted(true) {
        TakePosts(Unmail(s, n), i, input, ok, m);
      }
    }
  }

  lemma TakeLeaves(s: Sys, j: nat, input: Input, ready: bool, i: nat)
    requires i in s.sessions && j in s.sessions && s.sessions[i].screen.Password?
    requires i == j ==> input != Got(Submitted(true))
    ensures i in Take(s, j, input, ready).sessions && Take(s, j, input, ready).sessions[i].screen.Password?
  {
    TakeShape(s, j, input, ready);
    if i == j {
      DecideLeaves(s.sessions[j], s.sites, s.next, input, ready);
      hide Decide;
    } else {
      hide Take;
    }
  }

  lemma DecideLeaves(x: Session, sites: seq<Site>, n: nat, input: Input, ready: bool)
    requires x.screen.Password? && input != Got(Submitted(true))
    ensures var (y, e) := Decide(x, sites, n, input, ready); y.screen.Password? && !e.GiveUp?
  {
  }

  // Only a delivered acceptance leads away from the password screen.
  lemma OnlyAcceptanceLeaves(s: Sys, l: Label, i: nat)
    requires FreshNames(s) && Apply(s, l).Some? && i in s.sessions && s.sessions[i].screen.Password?
    requires !(l.Deliver? && s.mail[l.m] == Mail(i, Submitted(true)))
    ensures i in Apply(s, l).value.sessions && Apply(s, l).value.sessions[i].screen.Password?
  {
    hide Take, Receive, GoEffect, CleanEffect, AbortEffect, Step;
    match l {
      case Press(j, key) => TakeLeaves(s, j, Typed(key), true, i);
      case Deliver(m, ok) => ReceiveLeaves(s, m, ok, i);
      case Go(d, e) => GoShape(s, d, e);
      case Clean(c) => CleanShape(s, c);
      case Abort(j) => AbortShape(s, j);
      case _ => SmallShape(s, l);
    }
  }

  lemma ReceiveLeaves(s: Sys, m: nat, ok: bool, i: nat)
    requires m in s.mail && s.mail[m].to in s.sessions && i in s.sessions && s.sessions[i].screen.Password?
    requires s.mail[m] != Mail(i, Submitted(true))
    ensures i in Receive(s, m, ok).sessions && Receive(s, m, ok).sessions[i].screen.Password?
  {
    hide Take;
    if !(IsConnect(s.mail[m].letter) && !s.sessions[s.mail[m].to].screen.Dialing?) {
      TakeLeaves(Unmail(s, m), s.mail[m].to, Got(s.mail[m].letter), ok, i);
    }
  }

  lemma StillThereAfter(s: Sys, l: Label, i: nat)
    requires Apply(s, l).Some? && i in s.sessions
    ensures i in Apply(s, l).value.sessions
  {
    hide Take, Receive, GoEffect, CleanEffect, AbortEffect, Step;
    match l {
      case Press(j, key) => TakeShape(s, j, Typed(key), true);
      case Deliver(m, ok) => StillThereReceiving(s, m, ok, i);
      case Go(d, e) => GoShape(s, d, e);
      case Clean(c) => CleanShape(s, c);
      case Abort(j) => AbortShape(s, j);
      case _ => SmallShape(s, l);
    }
  }

  lemma StillThereReceiving(s: Sys, m: nat, ok: bool, i: nat)
    requires m in s.mail && s.mail[m].to in s.sessions && i in s.sessions
    ensures i in Receive(s, m, ok).sessions
  {
    hide Take;
    if !(IsConnect(s.mail[m].letter) && !s.sessions[s.mail[m].to].screen.Dialing?) {
      TakeShape(Unmail(s, m), s.mail[m].to, Got(s.mail[m].letter), ok);
    }
  }

  // ------------------------------------------------------------------ a forced change is made

  ghost predicate Explained(sites: seq<Site>, run: seq<Label>, s: Sys) {
    forall m :: m in s.mail && s.mail[m].letter == Submitted(true) ==>
      exists j: nat :: Accepts(sites, run, j, s.mail[m].to, m)
  }

  lemma AcceptsLonger(sites: seq<Site>, run: seq<Label>, l: Label, j: nat, i: nat, m: nat)
    requires Accepts(sites, run, j, i, m)
    ensures Accepts(sites, run + [l], j, i, m)
  {
    var s :| Before(sites, run, j, s) && s.next == m
             && i in s.sessions && s.sessions[i].screen == Password(true)
             && run[j].Press? && run[j].i == i && run[j].key.Enter? && run[j].key.accepted;
    BeforeLonger(sites, run, l, j, s);
  }

  lemma IsToldLonger(sites: seq<Site>, run: seq<Label>, l: Label, k: nat, i: nat, m: nat)
    requires IsTold(sites, run, k, i, m)
    ensures IsTold(sites, run + [l], k, i, m)
  {
    var s :| Before(sites, run, k, s) && m in s.mail && s.mail[m] == Mail(i, Submitted(true))
             && run[k].Deliver? && run[k].m == m;
    BeforeLonger(sites, run, l, k, s);
  }

  lemma ExplainedStep(sites: seq<Site>, run: seq<Label>, s: Sys, l: Label, m: nat)
    requires Exec(sites, run) == Some(s) && Grounded(s, sites) && Explained(sites, run, s) && Apply(s, l).Some?
    requires m in Apply(s, l).value.mail && Apply(s, l).value.mail[m].letter == Submitted(true)
    ensures exists j: nat :: Accepts(sites, run + [l], j, Apply(s, l).value.mail[m].to, m)
  {
    StepSpares(s, l);
    hide Apply, Exec;
    if m in s.mail {
      var j: nat :| Accepts(sites, run, j, s.mail[m].to, m);
      AcceptsLonger(sites, run, l, j, s.mail[m].to, m);
    } else {
      OnlyEnterAccepts(s, l, m);
      assert (run + [l])[..|run|] == run;
      assert Before(sites, run + [l], |run|, s);
      assert Accepts(sites, run + [l], |run|, l.i, m);
    }
  }

  lemma {:induction false} RunsExplain(sites: seq<Site>, run: seq<Label>)
    requires Exec(sites, run).Some?
    ensures Explained(sites, run, Exec(sites, run).value)
  {
    if run == [] {
      return;
    }
    var before, l := run[..|run| - 1], run[|run| - 1];
    RunsExplain(sites, before);
    RunsStayGrounded(sites, before);
    var s := Exec(sites, before).value;
    assert before + [l] == run;
    hide Apply;
    forall m | m in Exec(sites, run).value.mail && Exec(sites, run).value.mail[m].letter == Submitted(true)
      ensures exists j: nat :: Accepts(sites, run, j, Exec(sites, run).value.mail[m].to, m)
    {
      ExplainedStep(sites, before, s, l, m);
    }
  }

  // Session i has submitted a password that was accepted, and has been told.
  ghost predicate HasChanged(sites: seq<Site>, run: seq<Label>, i: nat) {
    exists j: nat, k: nat, m: nat :: Accepts(sites, run, j, i, m) && IsTold(sites, run, k, i, m)
  }

  lemma HasChangedLonger(sites: seq<Site>, run: seq<Label>, l: Label, i: nat)
    requires HasChanged(sites, run, i)
    ensures HasChanged(sites, run + [l], i)
  {
    hide Accepts, IsTold;
    var j: nat, k: nat, m: nat :| Accepts(sites, run, j, i, m) && IsTold(sites, run, k, i, m);
    AcceptsLonger(sites, run, l, j, i, m);
    IsToldLonger(sites, run, l, k, i, m);
  }

  lemma ToldHasChanged(sites: seq<Site>, run: seq<Label>, s: Sys, l: Label, i: nat)
    requires Exec(sites, run) == Some(s) && l.Deliver? && l.m in s.mail && s.mail[l.m] == Mail(i, Submitted(true))
    ensures HasChanged(sites, run + [l], i)
  {
    RunsExplain(sites, run);
    hide Exec, Accepts;
    var j: nat :| Accepts(sites, run, j, i, l.m);
    AcceptsLonger(sites, run, l, j, i, l.m);
    assert (run + [l])[..|run|] == run;
    assert Before(sites, run + [l], |run|, s);
    assert IsTold(sites, run + [l], |run|, i, l.m);
  }

  // A session that was made to change its password shows another screen only after it has: it
  // pressed Enter on the second field, the password was accepted, and it was told so.
  lemma {:induction false} ForcedChangeIsMade(sites: seq<Site>, run: seq<Label>, k: nat, i: nat)
    requires Exec(sites, run).Some? && ForcedLogin(sites, run, k, i)
    ensures i in Exec(sites, run).value.sessions
    ensures Exec(sites, run).value.sessions[i].screen.Password? || HasChanged(sites, run, i)
  {
    var n := |run| - 1;
    var before, l := run[..n], run[n];
    var s := Exec(sites, before).value;
    assert before + [l] == run;
    var s0 :| Before(sites, run, k, s0) && run[k] == Login(true) && s0.next == i;
    if k == n {
      assert run[..k] == before;
      return;
    }
    assert before[..k] == run[..k];
    assert Before(sites, before, k, s0);
    ForcedChangeIsMade(sites, before, k, i);
    RunsStayGrounded(sites, before);
    hide Apply, Exec, HasChanged, ForcedLogin;
    StillThereAfter(s, l, i);
    if HasChanged(sites, before, i) {
      HasChangedLonger(sites, before, l, i);
    } else if l.Deliver? && s.mail[l.m] == Mail(i, Submitted(true)) {
      ToldHasChanged(sites, before, s, l, i);
    } else {
      OnlyAcceptanceLeaves(s, l, i);
    }
  }

  // ------------------------------------------------------------------ nobody waits in vain

  // Whoever shows a running dial has one, or its answer is on the way.
  ghost predicate Hopeful(s: Sys) {
    forall i: nat :: Waits(s, i) ==> exists k :: Claimant(s, k) == Some(i)
  }

  lemma TakeHopes(s: Sys, j: nat, input: Input, ready: bool, i: nat)
    requires FreshNames(s) && j in s.sessions && Waits(Take(s, j, input, ready), i)
    requires Waits(s, i) ==> exists k :: Claimant(s, k) == Some(i)
    ensures exists k :: Claimant(Take(s, j, input, ready), k) == Some(i)
  {
    var s' := Take(s, j, input, ready);
    TakeShape(s, j, input, ready);
    if Waits(s, i) {
      hide Take;
      var k :| Claimant(s, k) == Some(i);
      assert Claimant(s', k) == Some(i);
    } else {
      assert i == j;
      DecideDials(s.sessions[j], s.sites, s.next, input, ready);
      hide Decide;
      assert Claimant(s', OfGoroutine(s.next)) == Some(i);
    }
  }

  // A session begins to show a running dial only as it starts one.
  lemma DecideDials(x: Session, sites: seq<Site>, n: nat, input: Input, ready: bool)
    requires x.screen != Dialing(false)
    ensures var (y, e) := Decide(x, sites, n, input, ready); y.screen == Dialing(false) ==> e.StartDialing?
  {
  }

  // The answer a session waits for ends the wait.
  lemma AnswerEndsWait(s: Sys, m: nat, ok: bool)
    requires m in s.mail && s.mail[m].letter.Answer? && s.mail[m].to in s.sessions
    ensures !Waits(Receive(s, m, ok), s.mail[m].to)
  {
  }

  lemma UnmailHopes(s: Sys, m: nat, i: nat)
    requires Hopeful(s) && Waits(s, i) && m in s.mail && !(s.mail[m].letter.Answer? && s.mail[m].to == i)
    ensures exists k :: Claimant(Unmail(s, m), k) == Some(i)
  {
    var k :| Claimant(s, k) == Some(i);
    assert Claimant(Unmail(s, m), k) == Some(i);
  }

  lemma ReceiveHopes(s: Sys, m: nat, ok: bool, i: nat)
    requires Hopeful(s) && FreshNames(s) && m in s.mail && s.mail[m].to in s.sessions && Waits(Receive(s, m, ok), i)
    ensures exists k :: Claimant(Receive(s, m, ok), k) == Some(i)
  {
    var j, l, s1 := s.mail[m].to, s.mail[m].letter, Unmail(s, m);
    if l.Answer? && j == i {
      AnswerEndsWait(s, m, ok);
      return;
    }
    if Waits(s1, i) {
      UnmailHopes(s, m, i);
    }
    UnmailFresh(s, m);
    hide FreshNames, Take, Hopeful;
    if IsConnect(l) && !s.sessions[j].screen.Dialing? {
      var k :| Claimant(s1, k) == Some(i);
      assert Claimant(Receive(s, m, ok), k) == Some(i);
    } else {
      TakeHopes(s1, j, Got(l), ok, i);
    }
  }

  lemma GoHopes(s: Sys, d: nat, e: Event, i: nat)
    requires Hopeful(s) && FreshNames(s) && Apply(s, Go(d, e)).Some? && Waits(Apply(s, Go(d, e)).value, i)
    ensures exists k :: Claimant(Apply(s, Go(d, e)).value, k) == Some(i)
  {
    var s', g := Apply(s, Go(d, e)).value, s.dials[d];
    GoShape(s, d, e);
    StillGoing(s, d, e);
    hide Apply, Step, GoEffect;
    assert Waits(s, i);
    var k :| Claimant(s, k) == Some(i);
    assert Claimant(s', if e.Return? && k == OfGoroutine(d) then OfAnswer(s.next) else k) == Some(i);
  }

  // A dial that acts was not done, and is done after it only if it returned.
  lemma StillGoing(s: Sys, d: nat, e: Event)
    requires Apply(s, Go(d, e)).Some?
    ensures d in s.dials && !s.dials[d].pc.Done?
    ensures !e.Return? ==> var t := Apply(s, Go(d, e)).value; d in t.dials && !t.dials[d].pc.Done?
  {
    var g := s.dials[d];
    if g.pc.Done? {
      NothingAfterDone(g.cfg, g.pc.reply, e);
    }
    if !e.Return? {
      StaysUndone(g.cfg, g.pc, e);
    }
    hide Step;
  }

  lemma StaysUndone(cfg: bool, pc: Pc, e: Event)
    requires Step(cfg, pc, e).Some? && !e.Return?
    ensures !Step(cfg, pc, e).value.Done?
  {
  }

  lemma OtherHopes(s: Sys, l: Label, i: nat)
    requires Hopeful(s) && FreshNames(s) && Apply(s, l).Some? && Waits(Apply(s, l).value, i)
    requires !l.Press? && !l.Deliver? && !l.Go?
    ensures exists k :: Claimant(Apply(s, l).value, k) == Some(i)
  {
    var s' := Apply(s, l).value;
    match l {
      case Clean(c) => CleanShape(s, c);
      case Abort(j) => AbortShape(s, j);
      case _ => SmallShape(s, l);
    }
    assert Waits(s, i) by {
      hide GoEffect, CleanEffect, Step;
    }
    hide Apply, GoEffect, CleanEffect, AbortEffect;
    var k :| Claimant(s, k) == Some(i);
    assert Claimant(s', k) == Some(i);
  }

  lemma HopefulStep(s: Sys, l: Label, i: nat)
    requires Hopeful(s) && FreshNames(s) && Apply(s, l).Some? && Waits(Apply(s, l).value, i)
    ensures exists k :: Claimant(Apply(s, l).value, k) == Some(i)
  {
    hide FreshNames, Take, Receive, GoEffect, CleanEffect, AbortEffect, Step, Put, Post;
    match l {
      case Press(j, key) => TakeHopes(s, j, Typed(key), true, i);
      case Deliver(m, ok) => ReceiveHopes(s, m, ok, i);
      case Go(d, e) => GoHopes(s, d, e, i);
      case _ => OtherHopes(s, l, i);
    }
  }

  // In every run, whatever disturbs it: a session that shows a running dial has one that is still
  // running for it, or an answer to it still to be delivered.
  lemma {:induction false} NobodyWaitsInVain(sites: seq<Site>, run: seq<Label>)
    requires Exec(sites, run).Some?
    ensures Hopeful(Exec(sites, run).value)
  {
    if run != [] {
      hide Apply, Waits;
      var before, l := run[..|run| - 1], run[|run| - 1];
      NobodyWaitsInVain(sites, before);
      RunsStayGrounded(sites, before);
      forall i: nat | Waits(Exec(sites, run).value, i)
        ensures exists k :: Claimant(Exec(sites, run).value, k) == Some(i)
      {
        HopefulStep(Exec(sites, before).value, l, i);
      }
    }
  }

  // ------------------------------------------------------------------ the keys

  ghost predicate ShowsAlive(s: Sys, i: nat, scr: Screen) {
    i in s.sessions && s.sessions[i].alive && s.sessions[i].screen == scr
  }

  function Asked(s: Sys, i: nat, selected: Option<int>): map<nat, Mail> {
    if selected.None? then s.mail else s.mail[s.next := Mail(i, DialRequest(selected.value))]
  }

  // On the password screen tab goes back and forth between the two fields, Enter goes to the second
  // one, and there submits.
  lemma PasswordKeys(s: Sys, i: nat, selected: Option<int>, accepted: bool)
    requires Running(s, i)
    ensures var scr := s.sessions[i].screen;
            var t, e := Apply(s, Press(i, Tab)).value, Apply(s, Press(i, Enter(selected, accepted))).value;
            && t.mail == s.mail
            && ShowsAlive(t, i, if scr.Password? then Password(!scr.confirming) else scr)
            && (scr == Password(false) ==> ShowsAlive(e, i, Password(true)) && e.mail == s.mail)
            && (scr == Password(true) ==> ShowsAlive(e, i, Password(true))
                                          && e.mail == s.mail[s.next := Mail(i, Submitted(accepted))])
  {
  }

  // ctrl+c at the password screen and the menu asks to quit, from a dial it leads to the menu; Enter
  // leaves a failed dial and no other one, and at the menu asks for the site selected.
  lemma KeysLead(s: Sys, i: nat, selected: Option<int>, accepted: bool)
    requires Running(s, i)
    ensures var scr := s.sessions[i].screen;
            var c, e := Apply(s, Press(i, CtrlC)).value, Apply(s, Press(i, Enter(selected, accepted))).value;
            && (scr.Password? || scr.Menu? ==>
                  ShowsAlive(c, i, scr) && s.next in c.mail && c.mail[s.next] == Mail(i, QuitMsg))
            && (scr.Dialing? ==> ShowsAlive(c, i, Menu) && ShowsAlive(e, i, if scr.done then Menu else scr))
            && (scr.Menu? ==> ShowsAlive(e, i, Menu) && e.mail == Asked(s, i, selected))
  {
  }

  // A dial request at the menu starts one dial, of the site asked for, if there is one.
  lemma RequestDials(s: Sys, m: nat, ok: bool)
    requires m in s.mail && s.mail[m].letter.DialRequest?
    requires Running(s, s.mail[m].to) && s.sessions[s.mail[m].to].screen.Menu?
    ensures var i, index, t := s.mail[m].to, s.mail[m].letter.index, Apply(s, Deliver(m, ok)).value;
            if 0 <= index < |s.sites| then
              var site := s.sites[index];
              && ShowsAlive(t, i, Dialing(false)) && t.sessions[i].site == site.name
              && t.dials == s.dials[s.next := Goroutine(i, site.name, |site.modemInit| > 0, Start, 0)]
            else ShowsAlive(t, i, Menu) && t.sessions[i].site == s.sessions[i].site && t.dials == s.dials
  {
  }

  lemma FailingAnswerShows(s: Sys, m: nat, ok: bool)
    requires m in s.mail && Running(s, s.mail[m].to) && s.sessions[s.mail[m].to].screen.Dialing?
    requires s.mail[m].letter.Answer? && !IsConnect(s.mail[m].letter)
    ensures ShowsAlive(Apply(s, Deliver(m, ok)).value, s.mail[m].to, Dialing(true))
  {
  }
}
