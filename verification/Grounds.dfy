/** Plain facts about every reachable state: names are fresh, program points sane, owners exist. */
module Grounds {
  import opened DialProtocol
  import opened Sites
  import opened Ownership

  ghost predicate FreshNames(s: Sys) {
    && (forall d :: d in s.dials ==> d < s.next)
    && (forall m :: m in s.mail ==> m < s.next)
    && (forall m :: m in s.lost ==> m < s.next)
    && (forall i :: i in s.sessions ==> i < s.next)
    && (forall c :: c in s.cleanups ==> c < s.next)
    && (forall h :: h in s.open ==> h < s.next)
    && s.mail.Keys !! s.lost.Keys
  }

  ghost predicate SaneDials(s: Sys) {
    forall d :: d in s.dials ==> Sane(s.dials[d].pc)
  }

  predicate Listed(sites: seq<Site>, name: string) {
    exists k | 0 <= k < |sites| :: sites[k].name == name
  }

  ghost predicate Addressed(s: Sys) {
    && (forall d :: d in s.dials ==> s.dials[d].owner in s.sessions && Listed(s.sites, s.dials[d].site))
    && (forall m :: m in s.mail ==> s.mail[m].to in s.sessions)
    && (forall m :: m in s.mail && s.mail[m].letter.Answer? ==> s.sites != [])
    && (forall c :: c in s.cleanups ==> s.cleanups[c].owner in s.sessions)
  }

  ghost predicate Grounded(s: Sys, sites: seq<Site>) {
    s.sites == sites && FreshNames(s) && SaneDials(s) && Addressed(s)
  }

  // ------------------------------------------------------------------ each kind of change

  lemma PostGrounded(s: Sys, to: nat, l: Letter, sites: seq<Site>)
    requires Grounded(s, sites) && to in s.sessions && (l.Answer? ==> sites != [])
    ensures Grounded(Post(s, to, l), sites)
  {
  }

  lemma PutGrounded(s: Sys, i: nat, x: Session, sites: seq<Site>)
    requires Grounded(s, sites) && i in s.sessions
    ensures Grounded(Put(s, i, x), sites)
  {
  }

  lemma LoginGrounded(s: Sys, x: Session, sites: seq<Site>)
    requires Grounded(s, sites)
    ensures Grounded(Put(s, s.next, x).(next := s.next + 1), sites)
  {
  }

  lemma StartDialGrounded(s: Sys, i: nat, x: Session, k: nat, sites: seq<Site>)
    requires Grounded(s, sites) && i in s.sessions && k < |sites|
    ensures Grounded(StartDial(s, i, x, sites[k]), sites)
  {
  }

  lemma StartCleanupGrounded(s: Sys, i: nat, x: Session, h: nat, sites: seq<Site>)
    requires Grounded(s, sites) && i in s.sessions
    ensures Grounded(StartCleanup(s, i, x, h), sites)
  {
  }

  lemma UnmailGrounded(s: Sys, m: nat, sites: seq<Site>)
    requires Grounded(s, sites)
    ensures Grounded(Unmail(s, m), sites)
  {
  }

  lemma LoseGrounded(s: Sys, m: nat, h: nat, sites: seq<Site>)
    requires Grounded(s, sites) && m in s.mail
    ensures Grounded(Lose(s, m, h), sites)
  {
  }

  lemma SetPcGrounded(s: Sys, d: nat, pc: Pc, sites: seq<Site>)
    requires Grounded(s, sites) && d in s.dials && Sane(pc)
    ensures Grounded(SetPc(s, d, pc), sites)
  {
  }

  lemma OpenGrounded(s: Sys, d: nat, pc: Pc, sites: seq<Site>)
    requires Grounded(s, sites) && d in s.dials && Sane(pc)
    ensures Grounded(GoEffect(s, d, Open(true), pc).value, sites)
  {
  }

  lemma SharedGrounded(s: Sys, s': Sys, sites: seq<Site>)
    requires Grounded(s, sites) && s'.open <= s.open && s' == s.(lock := s'.lock, open := s'.open)
    ensures Grounded(s', sites)
  {
  }

  lemma SetPhaseGrounded(s: Sys, c: nat, p: Phase, sites: seq<Site>)
    requires Grounded(s, sites) && c in s.cleanups
    ensures Grounded(SetPhase(s, c, p), sites)
  {
  }

  // ------------------------------------------------------------------ each step

  lemma DialRequested(x: Session, sites: seq<Site>, n: nat, input: Input, ready: bool, site: Site)
    requires Decide(x, sites, n, input, ready).1 == StartDialing(site)
    ensures exists k: nat :: k < |sites| && sites[k] == site
  {
    assert sites[input.letter.index] == site;
  }

  lemma NeverAnswers(x: Session, sites: seq<Site>, n: nat, input: Input, ready: bool, l: Letter)
    requires Decide(x, sites, n, input, ready).1 == Send(l)
    ensures !l.Answer?
  {
  }

  lemma TakeGrounded(s: Sys, i: nat, input: Input, ready: bool, sites: seq<Site>)
    requires Grounded(s, sites) && i in s.sessions
    ensures Grounded(Take(s, i, input, ready), sites)
  {
    hide Grounded, Decide, Put, Post, StartDial, StartCleanup;
    var (x, e) := Decide(s.sessions[i], s.sites, s.next, input, ready);
    match e {
      case Send(l) =>
        NeverAnswers(s.sessions[i], s.sites, s.next, input, ready, l);
        PutGrounded(s, i, x, sites);
        StillThere(s, i, x);
        PostGrounded(Put(s, i, x), i, l, sites);
      case StartDialing(site) =>
        DialRequested(s.sessions[i], s.sites, s.next, input, ready, site);
        var k: nat :| k < |s.sites| && s.sites[k] == site;
        SitesStay(s, sites);
        StartDialGrounded(s, i, x, k, sites);
      case IssueCleanup(h) => StartCleanupGrounded(s, i, x, h, sites);
      case GiveUp(h) => PutGrounded(s, i, x.(screen := Aborting(h, false)), sites);
      case _ => PutGrounded(s, i, x, sites);
    }
  }

  lemma StillThere(s: Sys, i: nat, x: Session)
    ensures i in Put(s, i, x).sessions
  {
  }

  lemma SitesStay(s: Sys, sites: seq<Site>)
    requires Grounded(s, sites)
    ensures s.sites == sites
  {
  }

  lemma ReceiveGrounded(s: Sys, m: nat, ok: bool, sites: seq<Site>)
    requires Grounded(s, sites) && m in s.mail && s.mail[m].to in s.sessions
    ensures Grounded(Receive(s, m, ok), sites)
  {
    hide Grounded, Take;
    if IsConnect(s.mail[m].letter) && !s.sessions[s.mail[m].to].screen.Dialing? {
      LoseGrounded(s, m, s.mail[m].letter.handle, sites);
    } else {
      UnmailGrounded(s, m, sites);
      TakeGrounded(Unmail(s, m), s.mail[m].to, Got(s.mail[m].letter), ok, sites);
    }
  }

  lemma SaneWithin(cfg: bool, pc: Pc, e: Event)
    requires Sane(pc) && WithinAttempt(pc) && Step(cfg, pc, e).Some?
    ensures Sane(Step(cfg, pc, e).value)
  {
  }

  lemma SaneElsewhere(cfg: bool, pc: Pc, e: Event)
    requires Sane(pc) && !WithinAttempt(pc) && Step(cfg, pc, e).Some?
    ensures Sane(Step(cfg, pc, e).value)
  {
  }

  lemma SaneStep(cfg: bool, pc: Pc, e: Event)
    requires Sane(pc) && Step(cfg, pc, e).Some?
    ensures Sane(Step(cfg, pc, e).value)
  {
    hide Sane, Step;
    if WithinAttempt(pc) {
      SaneWithin(cfg, pc, e);
    } else {
      SaneElsewhere(cfg, pc, e);
    }
  }

  lemma DialFacts(s: Sys, d: nat, sites: seq<Site>)
    requires Grounded(s, sites) && d in s.dials
    ensures Sane(s.dials[d].pc) && s.dials[d].owner in s.sessions && Listed(sites, s.dials[d].site) && sites != []
  {
  }

  lemma GoGrounded(s: Sys, d: nat, e: Event, sites: seq<Site>)
    requires Grounded(s, sites) && Apply(s, Go(d, e)).Some?
    ensures Grounded(Apply(s, Go(d, e)).value, sites)
  {
    hide Grounded, Step, Sane, Listed, Post;
    var g := s.dials[d];
    var pc := Step(g.cfg, g.pc, e).value;
    DialFacts(s, d, sites);
    SaneStep(g.cfg, g.pc, e);
    if e == Open(true) {
      OpenGrounded(s, d, pc, sites);
      return;
    }
    SetPcGrounded(s, d, pc, sites);
    if e.Return? {
      PostGrounded(SetPc(s, d, pc), g.owner, Answer(e.reply, g.handle), sites);
    } else {
      SharedGrounded(SetPc(s, d, pc), Apply(s, Go(d, e)).value, sites);
    }
  }

  lemma CleanGrounded(s: Sys, c: nat, sites: seq<Site>)
    requires Grounded(s, sites) && Apply(s, Clean(c)).Some?
    ensures Grounded(Apply(s, Clean(c)).value, sites)
  {
    var k := s.cleanups[c];
    hide Grounded;
    OwnerThere(s, c, sites);
    match k.phase {
      case Queued =>
        SetPhaseGrounded(s, c, ModemClosed, sites);
        SharedGrounded(SetPhase(s, c, ModemClosed), Apply(s, Clean(c)).value, sites);
      case ModemClosed =>
        SetPhaseGrounded(s, c, LockReleased, sites);
        SharedGrounded(SetPhase(s, c, LockReleased), Apply(s, Clean(c)).value, sites);
      case LockReleased =>
        SetPhaseGrounded(s, c, Finished, sites);
        PostGrounded(SetPhase(s, c, Finished), k.owner, CleanupDone, sites);
      case Finished =>
    }
  }

  lemma OwnerThere(s: Sys, c: nat, sites: seq<Site>)
    requires Grounded(s, sites) && c in s.cleanups
    ensures s.cleanups[c].owner in s.sessions
  {
  }

  lemma AbortGrounded(s: Sys, i: nat, sites: seq<Site>)
    requires Grounded(s, sites) && Apply(s, Abort(i)).Some?
    ensures Grounded(Apply(s, Abort(i)).value, sites)
  {
    AbortShape(s, i);
    var s', x := Apply(s, Abort(i)).value, GivenUp(s.sessions[i]);
    hide Grounded, Apply;
    PutGrounded(s, i, x, sites);
    SharedGrounded(Put(s, i, x), s', sites);
  }

  lemma StepGrounded(s: Sys, l: Label, sites: seq<Site>)
    requires Grounded(s, sites) && Apply(s, l).Some?
    ensures Grounded(Apply(s, l).value, sites)
  {
    hide Grounded, Take, Receive, GoEffect, CleanEffect, AbortEffect, Step, Put, Post;
    match l {
      case Login(force) => LoginGrounded(s, Session(true, if force then Password(false) else Menu, ""), sites);
      case Kill(i) => PutGrounded(s, i, s.sessions[i].(alive := false), sites);
      case Press(i, key) => TakeGrounded(s, i, Typed(key), true, sites);
      case Disrupt(i) => PostGrounded(s, i, Disconnect, sites);
      case Deliver(m, ok) => ReceiveGrounded(s, m, ok, sites);
      case Go(d, e) => GoGrounded(s, d, e, sites);
      case Clean(c) => CleanGrounded(s, c, sites);
      case Abort(i) => AbortGrounded(s, i, sites);
    }
  }

  lemma RunsStayGrounded(sites: seq<Site>, run: seq<Label>)
    requires Exec(sites, run).Some?
    ensures Grounded(Exec(sites, run).value, sites)
  {
    if run != [] {
      RunsStayGrounded(sites, run[..|run| - 1]);
      StepGrounded(Exec(sites, run[..|run| - 1]).value, run[|run| - 1], sites);
    }
  }
}
