/**
 Handles in every run, whatever the sites are called: no two tokens hold the same one, no two
 cleanups ever concern the same one, and every open one is held by a token.
 */
module Handles {
  import opened DialProtocol
  import opened Sites
  import opened Ownership
  import opened Grounds
  import opened Cleanups
  import opened Tokens

  ghost predicate TokensApart(s: Sys) {
    && (forall t, u | Hold(s, t).With? && Hold(s, t) == Hold(s, u) :: t == u)
    && (forall t | Hold(s, t).With? :: Hold(s, t).handle < s.next)
  }

  // No two cleanups have the same handle, and nobody else holds a handle that has a cleanup.
  ghost predicate CleanupsApart(s: Sys) {
    && (forall c :: c in s.cleanups ==> s.cleanups[c].handle < s.next)
    && (forall c, k | c in s.cleanups && k in s.cleanups :: s.cleanups[c].handle == s.cleanups[k].handle ==> c == k)
    && (forall c, t | c in s.cleanups && Hold(s, t) == With(s.cleanups[c].handle) :: t == OfCleanup(c))
  }

  ghost predicate OpenHeld(s: Sys) {
    forall h :: h in s.open ==> exists t :: Hold(s, t) == With(h)
  }

  // Where the token `t` of the next state was before.
  function Source(f: Flow, t: Token): Token {
    if f.Moves? && t == f.to then f.from else t
  }

  function Heir(f: Flow, t: Token): Token {
    if f.Moves? && t == f.from then f.to else t
  }

  // A handle held after a step is the new one, or was held by the source of its token.
  lemma HandleSource(s: Sys, s': Sys, f: Flow, t: Token)
    requires Flows(s, s', f) && Hold(s', t).With?
    ensures (f == Grabs(t) && Hold(s', t) == With(s.next) && s.next < s'.next)
            || Hold(s, Source(f, t)) == Hold(s', t)
  {
  }

  lemma TokensApartStep(s: Sys, s': Sys, f: Flow)
    requires TokensApart(s) && Flows(s, s', f)
    ensures TokensApart(s')
  {
    forall t, u | Hold(s', t).With? && Hold(s', t) == Hold(s', u) ensures t == u && Hold(s', t).handle < s'.next {
      HandleSource(s, s', f, t);
      HandleSource(s, s', f, u);
      hide Hold;
    }
    forall t | Hold(s', t).With? ensures Hold(s', t).handle < s'.next {
      HandleSource(s, s', f, t);
    }
  }

  lemma OpenHeldStep(s: Sys, s': Sys, f: Flow)
    requires OpenHeld(s) && Flows(s, s', f)
    ensures OpenHeld(s')
  {
    hide Hold;
    forall h | h in s'.open ensures exists t :: Hold(s', t) == With(h) {
      if h in s.open {
        var t :| Hold(s, t) == With(h);
        assert Hold(s', Heir(f, t)) == With(h);
      } else {
        assert Hold(s', f.t) == With(h);
      }
    }
  }

  // ------------------------------------------------------------------ the record of cleanups

  ghost predicate SameCleanups(s: Sys, s': Sys) {
    && s'.cleanups.Keys == s.cleanups.Keys
    && forall c :: c in s.cleanups ==> s'.cleanups[c].handle == s.cleanups[c].handle
  }

  // One more cleanup, for the handle that session `i` held.
  ghost predicate MoreCleanups(s: Sys, s': Sys, i: nat) {
    && s.next !in s.cleanups && s'.cleanups.Keys == s.cleanups.Keys + {s.next}
    && (forall c :: c in s.cleanups ==> s'.cleanups[c].handle == s.cleanups[c].handle)
    && Hold(s, OfSession(i)) == With(s'.cleanups[s.next].handle)
  }

  ghost predicate CleanupsFollow(s: Sys, s': Sys, f: Flow) {
    match f
    case Moves(OfSession(i), OfCleanup(c)) => c == s.next && MoreCleanups(s, s', i)
    case _ => SameCleanups(s, s')
  }

  lemma TakeCleanups(s: Sys, i: nat, input: Input, ready: bool)
    requires FreshNames(s) && i in s.sessions
    ensures CleanupsFollow(s, Take(s, i, input, ready), TakeFlow(s, i, input))
  {
    if Leaves(s, i, input) {
      LeaveCleanups(s, i, input, ready);
    } else {
      hide FreshNames;
      NoCleanup(s, i, input, ready);
      hide Decide;
    }
  }

  lemma LeaveCleanups(s: Sys, i: nat, input: Input, ready: bool)
    requires FreshNames(s) && Leaves(s, i, input)
    ensures CleanupsFollow(s, Take(s, i, input, ready), TakeFlow(s, i, input))
  {
  }

  lemma ReceiveCleanups(s: Sys, m: nat, ok: bool)
    requires FreshNames(s) && m in s.mail && s.mail[m].to in s.sessions
    ensures CleanupsFollow(s, Receive(s, m, ok), FlowOf(s, Deliver(m, ok)))
  {
    hide FreshNames, Take;
    if !(IsConnect(s.mail[m].letter) && !s.sessions[s.mail[m].to].screen.Dialing?) {
      UnmailFresh(s, m);
      TakeCleanups(Unmail(s, m), s.mail[m].to, Got(s.mail[m].letter), ok);
    }
  }

  lemma StepCleanups(s: Sys, l: Label)
    requires FreshNames(s) && Apply(s, l).Some?
    ensures CleanupsFollow(s, Apply(s, l).value, FlowOf(s, l))
  {
    hide FreshNames, Take, Receive, TakeFlow, FlowOf;
    match l {
      case Press(i, key) => PressCleanups(s, i, key);
      case Deliver(m, ok) => ReceiveCleanups(s, m, ok);
      case _ => SharedCleanups(s, l);
    }
  }

  lemma PressCleanups(s: Sys, i: nat, key: Key)
    requires FreshNames(s) && i in s.sessions
    ensures CleanupsFollow(s, Take(s, i, Typed(key), true), FlowOf(s, Press(i, key)))
  {
    hide FreshNames, Take, TakeFlow;
    TakeCleanups(s, i, Typed(key), true);
  }

  lemma SharedCleanups(s: Sys, l: Label)
    requires Apply(s, l).Some? && !l.Press? && !l.Deliver?
    ensures CleanupsFollow(s, Apply(s, l).value, FlowOf(s, l))
  {
    SharedFlow(s, l);
    hide Apply, FlowOf;
    match l {
      case Go(d, e) => GoShape(s, d, e);
      case Clean(c) => CleanShape(s, c);
      case Abort(i) => AbortShape(s, i);
      case _ => SmallShape(s, l);
    }
  }

  lemma SharedFlow(s: Sys, l: Label)
    requires !l.Press? && !l.Deliver?
    ensures FlowOf(s, l).Moves? ==> !FlowOf(s, l).from.OfSession?
  {
  }

  lemma SameCleanupsApart(s: Sys, s': Sys, f: Flow)
    requires CleanupsApart(s) && TokensApart(s) && Flows(s, s', f) && SameCleanups(s, s')
    requires f.Moves? ==> !f.from.OfCleanup? && !f.to.OfCleanup?
    ensures CleanupsApart(s')
  {
    hide Hold;
    forall c, t | c in s'.cleanups && Hold(s', t) == With(s'.cleanups[c].handle) ensures t == OfCleanup(c) {
      HandleSource(s, s', f, t);
      assert s.cleanups[c].handle == s'.cleanups[c].handle;
    }
  }

  lemma MoreCleanupsApart(s: Sys, s': Sys, i: nat)
    requires CleanupsApart(s) && TokensApart(s) && MoreCleanups(s, s', i)
    requires Flows(s, s', Moves(OfSession(i), OfCleanup(s.next)))
    ensures CleanupsApart(s')
  {
    hide Hold;
    var f := Moves(OfSession(i), OfCleanup(s.next));
    forall c, t | c in s'.cleanups && Hold(s', t) == With(s'.cleanups[c].handle) ensures t == OfCleanup(c) {
      HandleSource(s, s', f, t);
      if c != s.next {
        assert s.cleanups[c].handle == s'.cleanups[c].handle;
      }
    }
    forall k | k in s.cleanups ensures s'.cleanups[k].handle != s'.cleanups[s.next].handle {
      LeaverHasNone(s, i, k);
    }
  }

  // The handle of a session that has not left has no cleanup.
  lemma LeaverHasNone(s: Sys, i: nat, k: nat)
    requires CleanupsApart(s) && k in s.cleanups
    ensures Hold(s, OfSession(i)) != With(s.cleanups[k].handle)
  {
  }

  // Only sessions and their cleanups exchange tokens.
  lemma FlowKinds(s: Sys, l: Label)
    ensures var f := FlowOf(s, l);
            f.Moves? && (f.from.OfCleanup? || f.to.OfCleanup?) ==> f.from.OfSession? && f.to == OfCleanup(s.next)
  {
  }

  ghost predicate Apart(s: Sys) {
    TokensApart(s) && CleanupsApart(s) && OpenHeld(s)
  }

  lemma ApartStep(s: Sys, l: Label)
    requires Apart(s) && Orderly(s) && FreshNames(s) && SaneDials(s) && Apply(s, l).Some?
    ensures Apart(Apply(s, l).value)
  {
    hide Flows, Apply, Orderly, FreshNames, SaneDials, TokensApart, CleanupsApart, OpenHeld, FlowOf,
      SameCleanups, MoreCleanups;
    var s', f := Apply(s, l).value, FlowOf(s, l);
    StepFlows(s, l);
    StepCleanups(s, l);
    FlowKinds(s, l);
    TokensApartStep(s, s', f);
    OpenHeldStep(s, s', f);
    if f.Moves? && f.to.OfCleanup? {
      MoreCleanupsApart(s, s', f.from.i);
    } else {
      SameCleanupsApart(s, s', f);
    }
  }

  lemma RunsStayApart(sites: seq<Site>, run: seq<Label>)
    requires Exec(sites, run).Some?
    ensures var s := Exec(sites, run).value; Apart(s) && Orderly(s) && Grounded(s, sites)
  {
    RunsStayOrderly(sites, run);
    if run != [] {
      hide Orderly, Apart, Apply;
      var before := run[..|run| - 1];
      RunsStayApart(sites, before);
      ApartStep(Exec(sites, before).value, run[|run| - 1]);
    }
  }

  // ------------------------------------------------------------------ one cleanup for each CONNECT

  // Once in a whole run: two cleanup commands never concern the same CONNECT.
  lemma CleanupAtMostOnce(sites: seq<Site>, run: seq<Label>, c: nat, k: nat)
    requires Exec(sites, run).Some?
    requires c in Exec(sites, run).value.cleanups && k in Exec(sites, run).value.cleanups
    requires Exec(sites, run).value.cleanups[c].handle == Exec(sites, run).value.cleanups[k].handle
    ensures c == k
  {
    hide Exec;
    RunsStayApart(sites, run);
  }

  // Commands stay in the record, so the previous lemma speaks of the whole run.
  lemma CleanupsStay(s: Sys, l: Label, c: nat)
    requires Apply(s, l).Some? && c in s.cleanups && FreshNames(s)
    ensures c in Apply(s, l).value.cleanups
    ensures Apply(s, l).value.cleanups[c].handle == s.cleanups[c].handle
  {
    hide Apply, FreshNames, FlowOf;
    StepCleanups(s, l);
  }

  // Among a pending cleanup, its cleanupDoneMsg and its TerminalDoneMsg a session has at most one.
  lemma AtMostOneFarewell(sites: seq<Site>, run: seq<Label>, i: nat, m: nat, n: nat, c: nat, k: nat)
    requires Exec(sites, run).Some?
    ensures var s := Exec(sites, run).value;
            var mine := (x: nat) => IsNews(s, x) && s.mail[x].to == i;
            var busy := (x: nat) => x in s.cleanups && s.cleanups[x].owner == i && !IsDone(s, x);
            && (mine(m) && mine(n) ==> m == n)
            && (busy(c) && busy(k) ==> c == k)
            && !(mine(m) && busy(c))
  {
    hide Exec;
    RunsStayOrderly(sites, run);
  }

  lemma FinishedIsClosed(s: Sys, c: nat)
    requires Apart(s) && IsDone(s, c)
    ensures s.cleanups[c].handle !in s.open
  {
    forall t ensures Hold(s, t) != With(s.cleanups[c].handle) {
      assert t == OfCleanup(c) ==> Hold(s, t) == Nothing;
    }
  }

  // The connected screen is left for the menu only after the close and the release.
  lemma LeavesConnectedClean(sites: seq<Site>, run: seq<Label>, l: Label, i: nat)
    requires Exec(sites, run).Some? && Apply(Exec(sites, run).value, l).Some?
    requires i in Exec(sites, run).value.sessions && Exec(sites, run).value.sessions[i].screen.Connected?
    requires i in Apply(Exec(sites, run).value, l).value.sessions
             && !Apply(Exec(sites, run).value, l).value.sessions[i].screen.Connected?
    ensures var s := Exec(sites, run).value;
            IsCleaned(s, i) && s.sessions[i].screen.handle !in s.open
  {
    hide Exec, Apply;
    var s := Exec(sites, run).value;
    RunsStayApart(sites, run);
    if !(l.Deliver? && IsNews(s, l.m) && s.mail[l.m].to == i) {
      OnlyFarewellLeaves(s, l, i);
    } else {
      NewsFacts(s, l.m);
      FinishedIsClosed(s, CleaningOf(s, i).value);
    }
  }

  lemma StaysConnected(x: Session, sites: seq<Site>, n: nat, input: Input, ready: bool)
    requires x.screen.Connected? && input != Got(TerminalDone)
    ensures Decide(x, sites, n, input, ready).0.screen.Connected?
    ensures !Decide(x, sites, n, input, ready).1.GiveUp?
  {
  }

  lemma TakeStaysConnected(s: Sys, j: nat, input: Input, ready: bool, i: nat)
    requires i in s.sessions && j in s.sessions && s.sessions[i].screen.Connected?
    requires i == j ==> input != Got(TerminalDone)
    ensures i in Take(s, j, input, ready).sessions && Take(s, j, input, ready).sessions[i].screen.Connected?
  {
    hide Decide;
    if i == j {
      StaysConnected(s.sessions[i], s.sites, s.next, input, ready);
    }
  }

  lemma OnlyFarewellLeaves(s: Sys, l: Label, i: nat)
    requires Apply(s, l).Some? && i in s.sessions && s.sessions[i].screen.Connected? && FreshNames(s)
    requires !(l.Deliver? && IsNews(s, l.m) && s.mail[l.m].to == i)
    ensures i in Apply(s, l).value.sessions && Apply(s, l).value.sessions[i].screen.Connected?
  {
    hide Take, GoEffect, CleanEffect, AbortEffect, Step;
    match l {
      case Press(j, key) => TakeStaysConnected(s, j, Typed(key), true, i);
      case Deliver(m, ok) => ReceiveStaysConnected(s, m, ok, i);
      case Go(d, e) => GoShape(s, d, e);
      case Clean(c) => CleanShape(s, c);
      case Abort(j) => AbortShape(s, j);
      case _ => SmallShape(s, l);
    }
  }

  lemma ReceiveStaysConnected(s: Sys, m: nat, ok: bool, i: nat)
    requires m in s.mail && s.mail[m].to in s.sessions && i in s.sessions && s.sessions[i].screen.Connected?
    requires i == s.mail[m].to ==> s.mail[m].letter != TerminalDone
    ensures i in Receive(s, m, ok).sessions && Receive(s, m, ok).sessions[i].screen.Connected?
  {
    hide Take;
    if !(IsConnect(s.mail[m].letter) && !s.sessions[s.mail[m].to].screen.Dialing?) {
      TakeStaysConnected(Unmail(s, m), s.mail[m].to, Got(s.mail[m].letter), ok, i);
    }
  }
}
