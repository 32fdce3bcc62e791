/** Mutual exclusion on the modem, and exactly when it holds. */
module Exclusion {
  import opened Wrappers
  import opened DialProtocol
  import opened Sites
  import opened Ownership
  import opened Grounds
  import opened Cleanups
  import opened Tokens

  ghost predicate AllNamed(sites: seq<Site>) {
    forall k :: 0 <= k < |sites| ==> sites[k].name != ""
  }

  // At most one token, which is there iff the lock is taken, and whose handle alone may be open.
  ghost predicate OneOwner(s: Sys, o: Option<Token>) {
    && (forall t :: IsToken(s, t) ==> o == Some(t))
    && (o.Some? ==> IsToken(s, o.value))
    && (s.lock != "" <==> o.Some?)
    && (forall h :: h in s.open ==> o.Some? && Hold(s, o.value) == With(h))
  }

  function NextOwner(o: Option<Token>, f: Flow): Option<Token> {
    match f
    case Moves(a, b) => Some(b)
    case Gains(t) => Some(t)
    case Drops(_) => None
    case _ => o
  }

  lemma OwnerFlows(s: Sys, s': Sys, f: Flow, o: Option<Token>)
    requires OneOwner(s, o) && Flows(s, s', f) && (f.Gains? ==> s'.lock != "")
    ensures OneOwner(s', NextOwner(o, f))
  {
    hide Hold;
    if !f.Same? && !f.Gains? {
      assert IsToken(s, if f.Moves? then f.from else f.t);
    }
    forall t | IsToken(s', t) ensures NextOwner(o, f) == Some(t) {
      if !(f.Moves? && t == f.to) && !(f.Gains? && t == f.t) {
        assert IsToken(s, t);
      }
    }
  }

  // Whoever acquires the lock enters the name of a site.
  lemma GainsName(s: Sys, l: Label, sites: seq<Site>)
    requires Grounded(s, sites) && AllNamed(sites) && Apply(s, l).Some? && FlowOf(s, l).Gains?
    ensures Apply(s, l).value.lock == s.dials[l.d].site != ""
  {
    OnlyDialsGain(s, l);
    hide Step, FreshNames, SaneDials;
  }

  lemma OnlyDialsGain(s: Sys, l: Label)
    requires FlowOf(s, l).Gains?
    ensures l.Go? && l.e == Acquire(true)
  {
  }

  ghost predicate Governed(s: Sys, sites: seq<Site>, o: Option<Token>) {
    Grounded(s, sites) && Orderly(s) && OneOwner(s, o)
  }

  lemma GovernedStep(s: Sys, l: Label, sites: seq<Site>, o: Option<Token>)
    requires Governed(s, sites, o) && AllNamed(sites) && Apply(s, l).Some?
    ensures Governed(Apply(s, l).value, sites, NextOwner(o, FlowOf(s, l)))
  {
    hide Apply, FlowOf, OneOwner, Orderly, Flows, FreshNames, SaneDials, Addressed, AllNamed;
    StepFlows(s, l);
    StepGrounded(s, l, sites);
    OrderlyStep(s, l);
    if FlowOf(s, l).Gains? {
      GainsName(s, l, sites);
    }
    OwnerFlows(s, Apply(s, l).value, FlowOf(s, l), o);
  }

  // In every state that any run of any number of sessions reaches, the lock has one owner.
  lemma RunsKeepOneOwner(sites: seq<Site>, run: seq<Label>) returns (o: Option<Token>)
    requires AllNamed(sites) && Exec(sites, run).Some?
    ensures Governed(Exec(sites, run).value, sites, o)
  {
    if run == [] {
      return None;
    }
    hide Governed, Apply, FlowOf;
    var before, l := run[..|run| - 1], run[|run| - 1];
    o := RunsKeepOneOwner(sites, before);
    GovernedStep(Exec(sites, before).value, l, sites, o);
    o := NextOwner(o, FlowOf(Exec(sites, before).value, l));
  }

  ghost function TokenSet(s: Sys): set<Token> {
    (set d | d in s.dials && IsToken(s, OfDial(d)) :: OfDial(d))
    + (set m | m in s.mail && IsToken(s, OfMail(m)) :: OfMail(m))
    + (set m | m in s.lost :: OfLost(m))
    + (set i | i in s.sessions && IsToken(s, OfSession(i)) :: OfSession(i))
    + (set c | c in s.cleanups && IsToken(s, OfCleanup(c)) :: OfCleanup(c))
  }

  lemma TokensAreTokens(s: Sys, t: Token)
    ensures t in TokenSet(s) <==> IsToken(s, t)
  {
  }

  lemma OwnerIsOnlyToken(s: Sys, o: Option<Token>)
    requires OneOwner(s, o)
    ensures TokenSet(s) == if s.lock == "" then {} else {o.value}
  {
    hide TokenSet, IsToken;
    forall t ensures t in TokenSet(s) <==> o == Some(t) {
      TokensAreTokens(s, t);
    }
  }

  // One token if the lock is taken and none if it is free; every open handle belongs to it.
  lemma OneTokenWhenLocked(sites: seq<Site>, run: seq<Label>)
    requires AllNamed(sites) && Exec(sites, run).Some?
    ensures var s := Exec(sites, run).value;
            && |TokenSet(s)| == (if s.lock == "" then 0 else 1)
            && (forall h :: h in s.open ==> exists t :: Hold(s, t) == With(h))
            && |s.open| <= 1
  {
    hide TokenSet, Hold, Exec, Grounded, Orderly;
    var s := Exec(sites, run).value;
    var o := RunsKeepOneOwner(sites, run);
    OwnerIsOnlyToken(s, o);
    if h :| h in s.open {
      assert s.open == {h};
    }
  }

  // ------------------------------------------------------------------ the empty site name

  // A new session asks for site `k`: three steps, ending with a dial goroutine.

  ghost predicate Undisturbed(s: Sys, s': Sys) {
    s'.lock == s.lock && s'.open == s.open && s'.sites == s.sites && FreshNames(s')
  }

  lemma NewSession(s: Sys) returns (s': Sys)
    requires FreshNames(s)
    ensures Apply(s, Login(false)) == Some(s') && Undisturbed(s, s') && s'.next == s.next + 1
    ensures s.next in s'.sessions && s'.sessions[s.next] == Session(true, Menu, "")
  {
    s' := Put(s, s.next, Session(true, Menu, "")).(next := s.next + 1);
  }

  lemma NewRequest(s: Sys, i: nat, k: nat) returns (s': Sys)
    requires FreshNames(s) && i in s.sessions && s.sessions[i] == Session(true, Menu, "")
    ensures Apply(s, Press(i, Enter(Some(k), true))) == Some(s') && Undisturbed(s, s') && s'.next == s.next + 1
    ensures i in s'.sessions && s'.sessions[i] == Session(true, Menu, "")
    ensures s.next in s'.mail && s'.mail[s.next] == Mail(i, DialRequest(k))
  {
    s' := Post(Put(s, i, s.sessions[i]), i, DialRequest(k));
  }

  lemma NewDial(s: Sys, i: nat, m: nat, k: nat) returns (s': Sys)
    requires FreshNames(s) && i in s.sessions && s.sessions[i] == Session(true, Menu, "")
    requires m in s.mail && s.mail[m] == Mail(i, DialRequest(k)) && k < |s.sites|
    ensures Apply(s, Deliver(m, true)) == Some(s') && Undisturbed(s, s')
    ensures s.next in s'.dials && s'.dials[s.next].pc == Start && s'.dials[s.next].site == s.sites[k].name
  {
    s' := StartDial(Unmail(s, m), i, Session(true, Dialing(false), s.sites[k].name), s.sites[k]);
  }

  // A dial of a site with the empty name opens the device and does not mark the lock as taken.
  lemma UnnamedDial(s: Sys, d: nat) returns (s': Sys, s1: Sys)
    requires d in s.dials && s.dials[d].pc == Start && s.dials[d].site == ""
    requires s.lock == "" && FreshNames(s)
    ensures Apply(s, Go(d, Acquire(true))) == Some(s1)
    ensures Apply(s1, Go(d, Open(true))) == Some(s')
    ensures s'.lock == "" && s'.sites == s.sites && FreshNames(s')
    ensures s'.open == s.open + {s.next} && s.next !in s.open
  {
    var g := s.dials[d];
    s1 := s.(dials := s.dials[d := g.(pc := NextAttempt(1))]);
    s' := s1.(dials := s1.dials[d := g.(pc := Opened(1), handle := s.next)],
              open := s.open + {s.next}, next := s.next + 1);
  }

  lemma UnnamedDialOpens(sites: seq<Site>, run: seq<Label>, k: nat) returns (run': seq<Label>)
    requires k < |sites| && sites[k].name == ""
    requires Exec(sites, run).Some? && Exec(sites, run).value.lock == ""
    requires Exec(sites, run).value.sites == sites && FreshNames(Exec(sites, run).value)
    ensures Exec(sites, run').Some?
    ensures var s := Exec(sites, run).value; var s' := Exec(sites, run').value;
            && s'.lock == "" && s'.sites == sites && FreshNames(s')
            && exists h :: h !in s.open && s'.open == s.open + {h}
  {
    hide Apply, FreshNames;
    var s := Exec(sites, run).value;
    var n := s.next;
    var s1 := NewSession(s);
    run' := Longer(sites, run, s, Login(false), s1);
    var s2 := NewRequest(s1, n, k);
    run' := Longer(sites, run', s1, Press(n, Enter(Some(k), true)), s2);
    var s3 := NewDial(s2, n, n + 1, k);
    run' := Longer(sites, run', s2, Deliver(n + 1, true), s3);
    var s5, s4 := UnnamedDial(s3, n + 2);
    run' := Longer(sites, run', s3, Go(n + 2, Acquire(true)), s4);
    run' := Longer(sites, run', s4, Go(n + 2, Open(true)), s5);
  }

  lemma Longer(sites: seq<Site>, run: seq<Label>, s: Sys, l: Label, s': Sys) returns (run': seq<Label>)
    requires Exec(sites, run) == Some(s) && Apply(s, l) == Some(s')
    ensures Exec(sites, run') == Some(s')
  {
    ExecSnoc(sites, run, l);
    run' := run + [l];
  }

  // With such a site there is no bound on how many handles can be open at once.
  lemma UnnamedSiteBreaksExclusion(sites: seq<Site>, k: nat, n: nat) returns (run: seq<Label>)
    requires k < |sites| && sites[k].name == ""
    ensures Exec(sites, run).Some? && |Exec(sites, run).value.open| == n
    ensures Exec(sites, run).value.lock == "" && Exec(sites, run).value.sites == sites
    ensures FreshNames(Exec(sites, run).value)
  {
    if n == 0 {
      return [];
    }
    var run0 := UnnamedSiteBreaksExclusion(sites, k, n - 1);
    run := UnnamedDialOpens(sites, run0, k);
  }

  // Mutual exclusion holds for a site list exactly when every site has a name.
  lemma ExclusionIffNamed(sites: seq<Site>)
    ensures (forall run :: Exec(sites, run).Some? ==> |Exec(sites, run).value.open| <= 1)
            <==> AllNamed(sites)
  {
    if AllNamed(sites) {
      forall run | Exec(sites, run).Some? ensures |Exec(sites, run).value.open| <= 1 {
        OneTokenWhenLocked(sites, run);
      }
    } else {
      var k :| 0 <= k < |sites| && sites[k].name == "";
      var run := UnnamedSiteBreaksExclusion(sites, k, 2);
    }
  }
}