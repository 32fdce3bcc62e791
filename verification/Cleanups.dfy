/**
 Cleanup of a connected session (`cleanup` in internal/tui/connected.go and `updateConnected`
 in internal/tui/model.go): each is under way, or reported by one message, exactly while the
 session shows the connected screen with the cleaning flag set.
 */
module Cleanups {
  import opened Wrappers
  import opened DialProtocol
  import opened Sites
  import opened Ownership
  import opened Grounds

  predicate IsFarewell(l: Letter) {
    l.CleanupDone? || l.TerminalDone?
  }

  // The cleanup a session has issued and not yet taken its leave of.
  function CleaningOf(s: Sys, i: nat): Option<nat> {
    if i in s.sessions && s.sessions[i].screen.Connected? then s.sessions[i].screen.cleaning else None
  }

  predicate IsCleaning(s: Sys, i: nat, c: nat) {
    CleaningOf(s, i) == Some(c)
  }

  predicate IsDone(s: Sys, c: nat) {
    c in s.cleanups && s.cleanups[c].phase.Finished?
  }

  predicate IsCleaned(s: Sys, i: nat) {
    CleaningOf(s, i).Some? && IsDone(s, CleaningOf(s, i).value)
  }

  predicate IsNews(s: Sys, m: nat) {
    m in s.mail && IsFarewell(s.mail[m].letter)
  }

  // The cleanup a cleaning session names is its own.
  ghost predicate OwnCleanups(s: Sys) {
    forall i :: CleaningOf(s, i).Some? ==>
      var c := CleaningOf(s, i).value;
      c in s.cleanups && s.cleanups[c].owner == i && s.cleanups[c].handle == s.sessions[i].screen.handle
  }

  // A cleanup under way belongs to a session that is cleaning.
  ghost predicate Unfinished(s: Sys) {
    forall c :: c in s.cleanups && !IsDone(s, c) ==> IsCleaning(s, s.cleanups[c].owner, c)
  }

  // A message about a cleanup goes to a session whose cleanup is finished, one message to each.
  ghost predicate NewsIsTrue(s: Sys) {
    && (forall m :: IsNews(s, m) ==> IsCleaned(s, s.mail[m].to))
    && (forall m, n :: IsNews(s, m) && IsNews(s, n) && s.mail[m].to == s.mail[n].to ==> m == n)
  }

  // A session whose cleanup is finished has such a message.
  ghost predicate NewsArrives(s: Sys) {
    forall i :: IsCleaned(s, i) ==> exists m :: IsNews(s, m) && s.mail[m].to == i
  }

  ghost predicate Orderly(s: Sys) {
    OwnCleanups(s) && Unfinished(s) && NewsIsTrue(s) && NewsArrives(s)
  }

  // ------------------------------------------------------------------ each kind of change

  // What Orderly depends on, unchanged.
  ghost predicate SameOrder(s: Sys, s': Sys) {
    && s'.cleanups == s.cleanups
    && (forall i :: CleaningOf(s', i) == CleaningOf(s, i))
    && (forall i :: CleaningOf(s, i).Some? ==> s'.sessions[i].screen == s.sessions[i].screen)
    && (forall m :: IsNews(s', m) == IsNews(s, m) && (IsNews(s, m) ==> s'.mail[m] == s.mail[m]))
  }

  lemma OrderlyStays(s: Sys, s': Sys)
    requires Orderly(s) && SameOrder(s, s')
    ensures Orderly(s')
  {
    forall i | IsCleaned(s', i) ensures exists m :: IsNews(s', m) && s'.mail[m].to == i {
      assert IsCleaned(s, i);
      var m :| IsNews(s, m) && s.mail[m].to == i;
      assert IsNews(s', m);
    }
  }

  lemma PostOrder(s: Sys, to: nat, l: Letter)
    requires FreshNames(s) && !IsFarewell(l)
    ensures SameOrder(s, Post(s, to, l))
  {
  }

  // A session that is not cleaning, before or after, or keeps its screen.
  lemma PutOrder(s: Sys, i: nat, x: Session)
    requires CleaningOf(s, i) == None
    requires x.screen.Connected? ==> x.screen.cleaning.None?
    ensures SameOrder(s, Put(s, i, x))
  {
  }

  lemma KeepOrder(s: Sys, i: nat, x: Session)
    requires i in s.sessions && x.screen == s.sessions[i].screen
    ensures SameOrder(s, Put(s, i, x))
  {
  }

  lemma UnmailOrder(s: Sys, m: nat)
    requires !IsNews(s, m)
    ensures SameOrder(s, Unmail(s, m))
  {
  }

  lemma ElsewhereOrder(s: Sys, s': Sys)
    requires s'.sessions == s.sessions && s'.mail == s.mail && s'.cleanups == s.cleanups
    ensures SameOrder(s, s')
  {
  }

  lemma LoseOrder(s: Sys, m: nat, h: nat)
    ensures SameOrder(Unmail(s, m), Lose(s, m, h))
  {
  }

  // The session issues its cleanup.

  ghost predicate Begins(s: Sys, s': Sys, i: nat) {
    && FreshNames(s) && CleaningOf(s, i) == None && i in s.sessions
    && s'.mail == s.mail && i in s'.sessions
    && IsCleaning(s', i, s.next)
    && s'.cleanups == s.cleanups[s.next := Cleanup(i, s'.sessions[i].screen.handle, Queued)]
    && (forall j :: j != i ==> CleaningOf(s', j) == CleaningOf(s, j))
    && (forall j :: j != i && CleaningOf(s, j).Some? ==> s'.sessions[j].screen == s.sessions[j].screen)
  }

  lemma StartBegins(s: Sys, i: nat, x: Session, h: nat)
    requires FreshNames(s) && CleaningOf(s, i) == None && i in s.sessions
    requires x.screen.Connected? && x.screen.handle == h && x.screen.cleaning == Some(s.next)
    ensures Begins(s, StartCleanup(s, i, x, h), i)
  {
  }

  lemma BeginsOrderly(s: Sys, s': Sys, i: nat)
    requires Orderly(s) && Begins(s, s', i)
    ensures Orderly(s')
  {
    BeginsOwned(s, s', i);
    forall j | IsCleaned(s', j) ensures exists m :: IsNews(s', m) && s'.mail[m].to == j {
      assert IsCleaned(s, j);
      var m :| IsNews(s, m) && s.mail[m].to == j;
      assert IsNews(s', m);
    }
  }

  lemma BeginsOwned(s: Sys, s': Sys, i: nat)
    requires OwnCleanups(s) && Unfinished(s) && NewsIsTrue(s) && Begins(s, s', i)
    ensures OwnCleanups(s') && Unfinished(s') && NewsIsTrue(s')
  {
  }

  // A cleanup advances, but for its last phase.
  lemma AdvanceOrderly(s: Sys, c: nat, p: Phase)
    requires Orderly(s) && c in s.cleanups && !IsDone(s, c) && !p.Finished?
    ensures Orderly(SetPhase(s, c, p))
  {
    var s' := SetPhase(s, c, p);
    forall j | IsCleaned(s', j) ensures exists m :: IsNews(s', m) && s'.mail[m].to == j {
      assert IsCleaned(s, j);
      var m :| IsNews(s, m) && s.mail[m].to == j;
      assert IsNews(s', m);
    }
  }

  // A finished cleanup is reported.
  lemma FinishOwned(s: Sys, c: nat)
    requires OwnCleanups(s) && Unfinished(s) && NewsIsTrue(s) && FreshNames(s)
    requires c in s.cleanups && !IsDone(s, c)
    ensures var s' := Post(SetPhase(s, c, Finished), s.cleanups[c].owner, CleanupDone);
            OwnCleanups(s') && Unfinished(s') && NewsIsTrue(s')
  {
    FinishNews(s, c);
    hide NewsIsTrue;
  }

  lemma FinishNews(s: Sys, c: nat)
    requires Unfinished(s) && NewsIsTrue(s) && FreshNames(s) && c in s.cleanups && !IsDone(s, c)
    ensures NewsIsTrue(Post(SetPhase(s, c, Finished), s.cleanups[c].owner, CleanupDone))
  {
    var i := s.cleanups[c].owner;
    assert IsCleaning(s, i, c);
    assert forall m :: IsNews(s, m) ==> s.mail[m].to != i;
  }

  lemma FinishOrderly(s: Sys, c: nat)
    requires Orderly(s) && FreshNames(s) && c in s.cleanups && !IsDone(s, c)
    ensures Orderly(Post(SetPhase(s, c, Finished), s.cleanups[c].owner, CleanupDone))
  {
    FinishOwned(s, c);
    hide OwnCleanups, Unfinished, NewsIsTrue;
    var i := s.cleanups[c].owner;
    var s' := Post(SetPhase(s, c, Finished), i, CleanupDone);
    assert IsNews(s', s.next) && s'.mail[s.next].to == i;
    forall j | IsCleaned(s', j) ensures exists m :: IsNews(s', m) && s'.mail[m].to == j {
      if j != i {
        NotFinished(s, c, j);
        var m :| IsNews(s, m) && s.mail[m].to == j;
        assert IsNews(s', m);
      }
    }
  }

  lemma NotFinished(s: Sys, c: nat, j: nat)
    requires Orderly(s) && c in s.cleanups && j != s.cleanups[c].owner
    requires IsCleaned(Post(SetPhase(s, c, Finished), s.cleanups[c].owner, CleanupDone), j)
    ensures IsCleaned(s, j)
  {
  }

  // The first message is answered by the second.
  lemma ReportOrderly(s: Sys, m: nat)
    requires Orderly(s) && FreshNames(s) && IsNews(s, m)
    ensures Orderly(Post(Unmail(s, m), s.mail[m].to, TerminalDone))
  {
    var i := s.mail[m].to;
    var s' := Post(Unmail(s, m), i, TerminalDone);
    assert IsNews(s', s.next) && s'.mail[s.next].to == i;
    forall j | IsCleaned(s', j) && j != i ensures exists n :: IsNews(s', n) && s'.mail[n].to == j {
      assert IsCleaned(s, j);
      var n :| IsNews(s, n) && s.mail[n].to == j;
      assert IsNews(s', n);
    }
  }

  // The second message ends the session.
  lemma FarewellOrderly(s: Sys, m: nat, x: Session)
    requires Orderly(s) && IsNews(s, m) && !x.screen.Connected?
    ensures Orderly(Put(Unmail(s, m), s.mail[m].to, x))
  {
    var i := s.mail[m].to;
    var s' := Put(Unmail(s, m), i, x);
    assert IsCleaned(s, i);
    forall j | IsCleaned(s', j) ensures exists n :: IsNews(s', n) && s'.mail[n].to == j {
      assert j != i && IsCleaned(s, j);
      var n :| IsNews(s, n) && s.mail[n].to == j;
      assert IsNews(s', n);
    }
  }

  // ------------------------------------------------------------------ each step

  lemma StillIdle(x: Session, sites: seq<Site>, n: nat, input: Input, ready: bool)
    requires !x.screen.Connected?
    ensures var y := Decide(x, sites, n, input, ready).0; y.screen.Connected? ==> y.screen.cleaning.None?
    ensures var e := Decide(x, sites, n, input, ready).1; !e.IssueCleanup? && (e.Send? ==> !IsFarewell(e.letter))
  {
  }

  lemma TakeIdle(s: Sys, i: nat, input: Input, ready: bool)
    requires Orderly(s) && FreshNames(s) && i in s.sessions && !s.sessions[i].screen.Connected?
    ensures Orderly(Take(s, i, input, ready))
  {
    hide Orderly, SameOrder, Decide, FreshNames;
    var (x, e) := Decide(s.sessions[i], s.sites, s.next, input, ready);
    StillIdle(s.sessions[i], s.sites, s.next, input, ready);
    var y := if e.GiveUp? then x.(screen := Aborting(e.handle, false)) else x;
    PutOrder(s, i, y);
    OrderlyStays(s, Put(s, i, y));
    match e {
      case Send(l) =>
        PutFresh(s, i, x);
        PostOrder(Put(s, i, x), i, l);
        OrderlyStays(Put(s, i, x), Post(Put(s, i, x), i, l));
      case StartDialing(site) =>
        ElsewhereOrder(Put(s, i, x), StartDial(s, i, x, site));
        OrderlyStays(Put(s, i, x), StartDial(s, i, x, site));
      case _ =>
    }
  }

  lemma PutFresh(s: Sys, i: nat, x: Session)
    requires FreshNames(s) && i in s.sessions
    ensures FreshNames(Put(s, i, x))
  {
  }

  lemma UnmailFresh(s: Sys, m: nat)
    requires FreshNames(s)
    ensures FreshNames(Unmail(s, m))
  {
  }

  lemma TakeConnected(s: Sys, i: nat, input: Input, ready: bool)
    requires Orderly(s) && FreshNames(s) && i in s.sessions && s.sessions[i].screen.Connected?
    requires input.Got? ==> !IsFarewell(input.letter)
    ensures Orderly(Take(s, i, input, ready))
  {
    hide Orderly, SameOrder, FreshNames;
    var (x, e) := Decide(s.sessions[i], s.sites, s.next, input, ready);
    if Leaves(s, i, input) {
      StartBegins(s, i, x, s.sessions[i].screen.handle);
      BeginsOrderly(s, Take(s, i, input, ready), i);
    } else {
      KeepOrder(s, i, x);
      OrderlyStays(s, Put(s, i, x));
    }
  }

  lemma NewsFacts(s: Sys, m: nat)
    requires Orderly(s) && IsNews(s, m)
    ensures IsCleaned(s, s.mail[m].to)
  {
  }

  lemma ReceiveOrderly(s: Sys, m: nat, ok: bool)
    requires Orderly(s) && FreshNames(s) && m in s.mail && s.mail[m].to in s.sessions
    ensures Orderly(Receive(s, m, ok))
  {
    hide Orderly, SameOrder, FreshNames, Lose;
    var i, l, s1 := s.mail[m].to, s.mail[m].letter, Unmail(s, m);
    if IsFarewell(l) {
      ReceiveNews(s, m, ok);
      return;
    }
    UnmailOrder(s, m);
    OrderlyStays(s, s1);
    if IsConnect(l) && !s.sessions[i].screen.Dialing? {
      LoseOrder(s, m, l.handle);
      OrderlyStays(s1, Lose(s, m, l.handle));
      return;
    }
    hide Take;
    UnmailFresh(s, m);
    if s.sessions[i].screen.Connected? {
      TakeConnected(s1, i, Got(l), ok);
    } else {
      TakeIdle(s1, i, Got(l), ok);
    }
  }

  lemma ReceiveNews(s: Sys, m: nat, ok: bool)
    requires Orderly(s) && FreshNames(s) && IsNews(s, m) && s.mail[m].to in s.sessions
    ensures Orderly(Receive(s, m, ok))
  {
    NewsFacts(s, m);
    hide Orderly, FreshNames, IsDone;
    var i, l, s1 := s.mail[m].to, s.mail[m].letter, Unmail(s, m);
    if l.CleanupDone? {
      ReportOrderly(s, m);
      assert Put(s1, i, s.sessions[i]) == s1;
    } else {
      FarewellOrderly(s, m, s.sessions[i].(screen := Menu));
    }
  }

  lemma GoOrderly(s: Sys, d: nat, e: Event)
    requires Orderly(s) && FreshNames(s) && Apply(s, Go(d, e)).Some?
    ensures Orderly(Apply(s, Go(d, e)).value)
  {
    hide Orderly, SameOrder, FreshNames, Step;
    var g := s.dials[d];
    var s1 := SetPc(s, d, Step(g.cfg, g.pc, e).value);
    ElsewhereOrder(s, s1);
    OrderlyStays(s, s1);
    if e.Return? {
      SetPcFresh(s, d, Step(g.cfg, g.pc, e).value);
      PostOrder(s1, g.owner, Answer(e.reply, g.handle));
      OrderlyStays(s1, Apply(s, Go(d, e)).value);
    } else {
      ElsewhereOrder(s, Apply(s, Go(d, e)).value);
      OrderlyStays(s, Apply(s, Go(d, e)).value);
    }
  }

  lemma SetPcFresh(s: Sys, d: nat, pc: Pc)
    requires FreshNames(s) && d in s.dials
    ensures FreshNames(SetPc(s, d, pc))
  {
  }

  lemma CleanOrderly(s: Sys, c: nat)
    requires Orderly(s) && FreshNames(s) && Apply(s, Clean(c)).Some?
    ensures Orderly(Apply(s, Clean(c)).value)
  {
    hide Orderly, SameOrder, FreshNames, SetPhase;
    var s' := Apply(s, Clean(c)).value;
    match s.cleanups[c].phase {
      case Queued =>
        AdvanceOrderly(s, c, ModemClosed);
        ElsewhereOrder(SetPhase(s, c, ModemClosed), s');
        OrderlyStays(SetPhase(s, c, ModemClosed), s');
      case ModemClosed =>
        AdvanceOrderly(s, c, LockReleased);
        ElsewhereOrder(SetPhase(s, c, LockReleased), s');
        OrderlyStays(SetPhase(s, c, LockReleased), s');
      case LockReleased => FinishOrderly(s, c);
      case Finished =>
    }
  }

  lemma AbortOrderly(s: Sys, i: nat)
    requires Orderly(s) && Apply(s, Abort(i)).Some?
    ensures Orderly(Apply(s, Abort(i)).value)
  {
    AbortShape(s, i);
    var s', x := Apply(s, Abort(i)).value, GivenUp(s.sessions[i]);
    PutOrder(s, i, x);
    hide Orderly, SameOrder, Apply;
    OrderlyStays(s, Put(s, i, x));
    ElsewhereOrder(Put(s, i, x), s');
    OrderlyStays(Put(s, i, x), s');
  }

  lemma LoginOrderly(s: Sys, force: bool)
    requires Orderly(s) && FreshNames(s)
    ensures Orderly(Apply(s, Login(force)).value)
  {
    hide Orderly, SameOrder;
    var s' := Apply(s, Login(force)).value;
    PutOrder(s, s.next, s'.sessions[s.next]);
    OrderlyStays(s, Put(s, s.next, s'.sessions[s.next]));
    ElsewhereOrder(Put(s, s.next, s'.sessions[s.next]), s');
    OrderlyStays(Put(s, s.next, s'.sessions[s.next]), s');
  }

  lemma OrderlyStep(s: Sys, l: Label)
    requires Orderly(s) && FreshNames(s) && Apply(s, l).Some?
    ensures Orderly(Apply(s, l).value)
  {
    hide Orderly, SameOrder, FreshNames, Take, Receive, GoEffect, CleanEffect, AbortEffect, Step, Put, Post;
    match l {
      case Login(force) => LoginOrderly(s, force);
      case Kill(i) =>
        KeepOrder(s, i, s.sessions[i].(alive := false));
        OrderlyStays(s, Apply(s, l).value);
      case Press(i, key) =>
        if s.sessions[i].screen.Connected? {
          TakeConnected(s, i, Typed(key), true);
        } else {
          TakeIdle(s, i, Typed(key), true);
        }
      case Disrupt(i) =>
        PostOrder(s, i, Disconnect);
        OrderlyStays(s, Apply(s, l).value);
      case Deliver(m, ok) => ReceiveOrderly(s, m, ok);
      case Go(d, e) => GoOrderly(s, d, e);
      case Clean(c) => CleanOrderly(s, c);
      case Abort(i) => AbortOrderly(s, i);
    }
  }

  // In every state that any run reaches, whatever the sites are called.
  lemma RunsStayOrderly(sites: seq<Site>, run: seq<Label>)
    requires Exec(sites, run).Some?
    ensures Orderly(Exec(sites, run).value) && Grounded(Exec(sites, run).value, sites)
  {
    if run != [] {
      hide Orderly, Apply;
      var before := run[..|run| - 1];
      RunsStayOrderly(sites, before);
      RunsStayGrounded(sites, run);
      OrderlyStep(Exec(sites, before).value, run[|run| - 1]);
    }
  }
}
