/**
 The event protocol of one dial goroutine (`acquireAndDial` and `dialAttempt` in
 internal/tui/dialing.go).  `Step` says which externally visible action may follow which;
 the code in module DialCode is only able to emit allowed events, and the system of sessions in
 module Ownership interleaves goroutines that follow the same relation.
 */
module DialProtocol {
  import opened Wrappers

  datatype DialResult = Connect | Busy | NoCarrier | NoDialtone | Error | Timeout

  const MAX_RETRIES: nat := 3

  predicate Retryable(r: DialResult) {
    r == NoCarrier || r == Timeout
  }

  // The message handed back to the user interface: an ErrorMsg, or a DialResultMsg whose
  // Modem field is set or nil.
  datatype Reply = Failed | Answered(result: DialResult, modem: bool)

  datatype Event =
    | Acquire(ok: bool)
    | SeeBridge(running: bool)
    | SeeDevice(present: bool)
    | Terminate
    | Sleep(ms: nat)
    | Open(ok: bool)
    | Init(ok: bool)
    | Configure(ok: bool)
    | Dial(outcome: Option<DialResult>)  // None: the ATDT command could not be written
    | Hangup
    | Close
    | Release
    | Return(reply: Reply)

  // A record of events, the latest last.
  datatype Log = Empty | Then(before: Log, last: Event) {
    function Times(e: Event): nat {
      match this
      case Empty => 0
      case Then(b, l) => b.Times(e) + if l == e then 1 else 0
    }

    predicate Has(e: Event) {
      Times(e) > 0
    }
  }

  datatype Pc =
    | Start
    | Refused
    | NextAttempt(n: nat)
    | Opened(n: nat)
    | Initialised(n: nat)
    | Ready(n: nat)
    | Broken
    | Scrap
    | Online
    | Dialled(n: nat, r: DialResult)
    | HungUp(n: nat, r: DialResult)
    | BridgeWait(n: nat, killed: bool)
    | DeviceWait(n: nat)
    | MustRelease(reply: Reply)
    | Released(reply: Reply)
    | Done(reply: Reply)

  // `cfg` says whether the site has modem init commands, so that Configure is called.
  function Step(cfg: bool, pc: Pc, e: Event): Option<Pc> {
    match (pc, e)
    case (Start, Acquire(ok)) => Some(if ok then NextAttempt(1) else Refused)
    case (Refused, Return(r)) => if r == Failed then Some(Done(r)) else None
    case (NextAttempt(n), Sleep(_)) => Some(pc)
    case (NextAttempt(n), Open(ok)) => Some(if ok then Opened(n) else MustRelease(Failed))
    case (Opened(n), Init(ok)) =>
      Some(if !ok then Scrap else if cfg then Initialised(n) else Ready(n))
    case (Initialised(n), Configure(ok)) => Some(if ok then Ready(n) else Scrap)
    case (Ready(n), Dial(o)) =>
      (match o
       case None => Some(Broken)
       case Some(r) => Some(if r == Connect then Online else Dialled(n, r)))
    case (Broken, Hangup) => Some(Scrap)
    case (Scrap, Close) => Some(MustRelease(Failed))
    case (Online, Return(r)) => if r == Answered(Connect, true) then Some(Done(r)) else None
    case (Dialled(n, r), Hangup) => Some(HungUp(n, r))
    case (HungUp(n, r), Close) =>
      Some(if Retryable(r) && n < MAX_RETRIES then BridgeWait(n + 1, false)
           else MustRelease(Answered(r, false)))
    case (BridgeWait(n, killed), Sleep(_)) => Some(pc)
    case (BridgeWait(n, killed), Terminate) => if killed then None else Some(BridgeWait(n, true))
    case (BridgeWait(n, killed), SeeBridge(running)) =>
      Some(if !running then DeviceWait(n)
           else if killed then MustRelease(Failed)
           else pc)
    case (DeviceWait(n), Sleep(_)) => Some(pc)
    case (DeviceWait(n), SeeDevice(present)) => Some(if present then NextAttempt(n) else pc)
    case (DeviceWait(n), Release) => Some(Released(Failed))
    case (MustRelease(r), Release) => Some(Released(r))
    case (Released(r), Return(r')) => if r' == r then Some(Done(r)) else None
    case _ => None
  }

  // The goroutine holds the device lock.
  predicate Holding(pc: Pc) {
    !pc.Start? && !pc.Refused? && !pc.Released? && !pc.Done?
  }

  // The goroutine has the device file open.
  predicate HasHandle(pc: Pc) {
    pc.Opened? || pc.Initialised? || pc.Ready? || pc.Broken? || pc.Scrap? || pc.Online?
    || pc.Dialled? || pc.HungUp?
  }

  function Run(cfg: bool, tr: Log): Option<Pc> {
    match tr
    case Empty => Some(Start)
    case Then(b, e) =>
      match Run(cfg, b)
      case None => None
      case Some(pc) => Step(cfg, pc, e)
  }

  // ------------------------------------------------------------------ the shape of all traces

  // Waiting is not significant: sleeping, killing, and observations that do not end a wait.
  predicate Significant(e: Event) {
    !e.Sleep? && !e.Terminate? && e != SeeBridge(true) && e != SeeDevice(false)
  }

  function Kept(g: Log, e: Event): Log {
    if Significant(e) then Then(g, e) else g
  }

  function Gist(tr: Log): Log {
    match tr
    case Empty => Empty
    case Then(b, e) => Kept(Gist(b), e)
  }

  // The functions below say what follows a given beginning `g`.

  function Setup(g: Log, cfg: bool): Log {
    if cfg then Then(Then(Then(g, Open(true)), Init(true)), Configure(true))
    else Then(Then(g, Open(true)), Init(true))
  }

  // An attempt that got a result other than CONNECT and was hung up.
  function FailedDial(g: Log, cfg: bool, r: DialResult): Log {
    Then(Then(Then(Setup(g, cfg), Dial(Some(r))), Hangup), Close)
  }

  // Getting the lock, and all attempts that were followed by another one, with their results.
  function Retries(cfg: bool, rs: seq<DialResult>): Log {
    if rs == [] then Then(Empty, Acquire(true))
    else
      var earlier := Retries(cfg, rs[..|rs| - 1]);
      Then(Then(FailedDial(earlier, cfg, rs[|rs| - 1]), SeeBridge(false)), SeeDevice(true))
  }

  datatype Ending =
    | Success
    | OpenFailed
    | InitFailed
    | ConfigureFailed
    | WriteFailed
    | NoMoreTries(r: DialResult)
    | BridgeStuck(r: DialResult)
    | DeviceGone(r: DialResult)

  function Scrapped(g: Log, cfg: bool, e: Ending): Log {
    match e
    case InitFailed => Then(Then(g, Open(true)), Init(false))
    case ConfigureFailed => Then(Then(Then(g, Open(true)), Init(true)), Configure(false))
    case _ => Then(Then(Setup(g, cfg), Dial(None)), Hangup)
  }

  function Finale(g: Log, cfg: bool, e: Ending): Log {
    match e
    case Success => Then(Setup(g, cfg), Dial(Some(Connect)))
    case OpenFailed => Then(g, Open(false))
    case InitFailed | ConfigureFailed | WriteFailed => Then(Scrapped(g, cfg, e), Close)
    case NoMoreTries(r) => FailedDial(g, cfg, r)
    case BridgeStuck(r) => FailedDial(g, cfg, r)
    case DeviceGone(r) => Then(FailedDial(g, cfg, r), SeeBridge(false))
  }

  function ReplyOf(e: Ending): Reply {
    match e
    case Success => Answered(Connect, true)
    case NoMoreTries(r) => Answered(r, false)
    case _ => Failed
  }

  // Which endings may follow which retries: at most three attempts in all, retrying and waiting
  // only after NO CARRIER or TIMEOUT, stopping short of three only when a retry cannot help.
  predicate Plausible(cfg: bool, rs: seq<DialResult>, e: Ending) {
    && |rs| < MAX_RETRIES
    && (forall i :: 0 <= i < |rs| ==> Retryable(rs[i]))
    && (e.ConfigureFailed? ==> cfg)
    && (e.NoMoreTries? ==> e.r != Connect && (Retryable(e.r) ==> |rs| == MAX_RETRIES - 1))
    && (e.BridgeStuck? || e.DeviceGone? ==> Retryable(e.r) && |rs| < MAX_RETRIES - 1)
  }

  function Freed(g: Log, e: Ending): Log {
    if e.Success? then g else Then(g, Release)
  }

  // The gist of every finished run that got the lock.
  function Story(cfg: bool, rs: seq<DialResult>, e: Ending): Log {
    Then(Freed(Finale(Retries(cfg, rs), cfg, e), e), Return(ReplyOf(e)))
  }

  // What has happened when the goroutine is at `pc` after the retries `g`; `e` is the ending
  // that is under way where the program point alone does not tell.
  function SoFar(g: Log, cfg: bool, pc: Pc, e: Ending): Log {
    match pc
    case Start | Refused | NextAttempt(_) => g
    case Opened(_) => Then(g, Open(true))
    case Initialised(_) => Then(Then(g, Open(true)), Init(true))
    case Ready(_) => Setup(g, cfg)
    case Broken => Then(Setup(g, cfg), Dial(None))
    case Scrap => Scrapped(g, cfg, e)
    case Dialled(_, r) => Then(Setup(g, cfg), Dial(Some(r)))
    case HungUp(_, r) => Then(Then(Setup(g, cfg), Dial(Some(r))), Hangup)
    case Online | BridgeWait(_, _) | DeviceWait(_) | MustRelease(_) => Finale(g, cfg, e)
    case Released(_) => Then(Finale(g, cfg, e), Release)
    case Done(r) => Then(Freed(Finale(g, cfg, e), e), Return(r))
  }

  // The program point agrees with the retries so far and the ending under way.
  ghost predicate Agrees(cfg: bool, pc: Pc, rs: seq<DialResult>, e: Ending) {
    match pc
    case NextAttempt(n) => n == |rs| + 1
    case Opened(n) => n == |rs| + 1
    case Initialised(n) => n == |rs| + 1 && cfg
    case Ready(n) => n == |rs| + 1
    case Scrap => e.InitFailed? || e.ConfigureFailed? || e.WriteFailed?
    case Online => e == Success
    case Dialled(n, r) => n == |rs| + 1 && r != Connect
    case HungUp(n, r) => n == |rs| + 1 && r != Connect
    case BridgeWait(n, _) => n == |rs| + 2 && e.BridgeStuck?
    case DeviceWait(n) => n == |rs| + 2 && e.DeviceGone?
    case MustRelease(r) => !e.Success? && r == ReplyOf(e)
    case Released(r) => !e.Success? && r == ReplyOf(e)
    case Done(r) => r == ReplyOf(e)
    case _ => true
  }

  const REFUSED := Then(Then(Empty, Acquire(false)), Return(Failed))

  ghost predicate Fits(cfg: bool, pc: Pc, rs: seq<DialResult>, e: Ending, g: Log) {
    || (pc == Start && g == Empty)
    || (pc == Refused && g == Then(Empty, Acquire(false)))
    || (pc == Done(Failed) && g == REFUSED)
    || (!pc.Start? && !pc.Refused? && Agrees(cfg, pc, rs, e)
        && g == SoFar(Retries(cfg, rs), cfg, pc, e))
  }

  // The ending that is under way after event `e`, given the one under way before it.
  ghost function NextEnding(pc: Pc, e: Event, was: Ending): Ending {
    match (pc, e)
    case (NextAttempt(_), Open(ok)) => if ok then Success else OpenFailed
    case (Opened(_), Init(ok)) => if ok then Success else InitFailed
    case (Initialised(_), Configure(ok)) => if ok then Success else ConfigureFailed
    case (Ready(_), Dial(_)) => Success
    case (Broken, Hangup) => WriteFailed
    case (HungUp(n, r), Close) =>
      if Retryable(r) && n < MAX_RETRIES then BridgeStuck(r) else NoMoreTries(r)
    case (BridgeWait(_, _), SeeBridge(running)) =>
      if !running && was.BridgeStuck? then DeviceGone(was.r) else was
    case (DeviceWait(_), SeeDevice(present)) => if present then Success else was
    case _ => was
  }

  ghost predicate StaysInAttempt(cfg: bool, pc: Pc, ev: Event, rs: seq<DialResult>, e: Ending, g: Log)
    requires Step(cfg, pc, ev).Some?
  {
    var pc', e' := Step(cfg, pc, ev).value, NextEnding(pc, ev, e);
    && Plausible(cfg, rs, e') && Agrees(cfg, pc', rs, e')
    && !pc'.Start? && !pc'.Refused?
    && SoFar(g, cfg, pc', e') == Kept(SoFar(g, cfg, pc, e), ev)
  }

  predicate BeforeResult(pc: Pc) {
    pc.Opened? || pc.Initialised? || pc.Ready?
  }

  lemma StepOfDial(cfg: bool, n: nat, ev: Event, rs: seq<DialResult>, e: Ending, g: Log)
    requires Plausible(cfg, rs, e) && Agrees(cfg, Ready(n), rs, e) && Step(cfg, Ready(n), ev).Some?
    ensures StaysInAttempt(cfg, Ready(n), ev, rs, e, g)
  {
  }

  lemma StepOpened(cfg: bool, pc: Pc, ev: Event, rs: seq<DialResult>, e: Ending, g: Log)
    requires Plausible(cfg, rs, e) && Agrees(cfg, pc, rs, e) && pc.Opened?
    requires Step(cfg, pc, ev).Some?
    ensures StaysInAttempt(cfg, pc, ev, rs, e, g)
  {
  }

  lemma StepInitialised(cfg: bool, pc: Pc, ev: Event, rs: seq<DialResult>, e: Ending, g: Log)
    requires Plausible(cfg, rs, e) && Agrees(cfg, pc, rs, e) && pc.Initialised?
    requires Step(cfg, pc, ev).Some?
    ensures StaysInAttempt(cfg, pc, ev, rs, e, g)
  {
  }

  lemma StepBeforeResult(cfg: bool, pc: Pc, ev: Event, rs: seq<DialResult>, e: Ending, g: Log)
    requires Plausible(cfg, rs, e) && Agrees(cfg, pc, rs, e) && BeforeResult(pc)
    requires Step(cfg, pc, ev).Some?
    ensures StaysInAttempt(cfg, pc, ev, rs, e, g)
  {
    hide Plausible, Agrees, Step, StaysInAttempt;
    match pc {
      case Ready(n) => StepOfDial(cfg, n, ev, rs, e, g);
      case Opened(_) => StepOpened(cfg, pc, ev, rs, e, g);
      case Initialised(_) => StepInitialised(cfg, pc, ev, rs, e, g);
    }
  }

  lemma StepHungUp(cfg: bool, pc: Pc, ev: Event, rs: seq<DialResult>, e: Ending, g: Log)
    requires Plausible(cfg, rs, e) && Agrees(cfg, pc, rs, e) && pc.HungUp?
    requires Step(cfg, pc, ev).Some?
    ensures StaysInAttempt(cfg, pc, ev, rs, e, g)
  {
    hide Setup, Retries;
  }

  lemma StepScrap(cfg: bool, pc: Pc, ev: Event, rs: seq<DialResult>, e: Ending, g: Log)
    requires Plausible(cfg, rs, e) && Agrees(cfg, pc, rs, e) && (pc.Scrap? || pc.Broken?)
    requires Step(cfg, pc, ev).Some?
    ensures StaysInAttempt(cfg, pc, ev, rs, e, g)
  {
  }

  lemma StepOnline(cfg: bool, pc: Pc, ev: Event, rs: seq<DialResult>, e: Ending, g: Log)
    requires Plausible(cfg, rs, e) && Agrees(cfg, pc, rs, e) && (pc.Online? || pc.Dialled?)
    requires Step(cfg, pc, ev).Some?
    ensures StaysInAttempt(cfg, pc, ev, rs, e, g)
  {
  }

  lemma StepAfterResult(cfg: bool, pc: Pc, ev: Event, rs: seq<DialResult>, e: Ending, g: Log)
    requires Plausible(cfg, rs, e) && Agrees(cfg, pc, rs, e) && HasHandle(pc) && !BeforeResult(pc)
    requires Step(cfg, pc, ev).Some?
    ensures StaysInAttempt(cfg, pc, ev, rs, e, g)
  {
    hide Plausible, Agrees, Step, StaysInAttempt;
    match pc {
      case HungUp(_, _) => StepHungUp(cfg, pc, ev, rs, e, g);
      case Scrap => StepScrap(cfg, pc, ev, rs, e, g);
      case Broken => StepScrap(cfg, pc, ev, rs, e, g);
      case _ => StepOnline(cfg, pc, ev, rs, e, g);
    }
  }

  lemma StepNextAttempt(cfg: bool, pc: Pc, ev: Event, rs: seq<DialResult>, e: Ending, g: Log)
    requires Plausible(cfg, rs, e) && Agrees(cfg, pc, rs, e) && pc.NextAttempt?
    requires Step(cfg, pc, ev).Some?
    ensures StaysInAttempt(cfg, pc, ev, rs, e, g)
  {
  }

  lemma StepBridgeWait(cfg: bool, pc: Pc, ev: Event, rs: seq<DialResult>, e: Ending, g: Log)
    requires Plausible(cfg, rs, e) && Agrees(cfg, pc, rs, e) && pc.BridgeWait?
    requires Step(cfg, pc, ev).Some?
    ensures StaysInAttempt(cfg, pc, ev, rs, e, g)
  {
  }

  lemma StepDeviceWait(cfg: bool, pc: Pc, ev: Event, rs: seq<DialResult>, e: Ending, g: Log)
    requires Plausible(cfg, rs, e) && Agrees(cfg, pc, rs, e) && pc.DeviceWait?
    requires Step(cfg, pc, ev).Some? && ev != SeeDevice(true)
    ensures StaysInAttempt(cfg, pc, ev, rs, e, g)
  {
  }

  lemma StepReleasing(cfg: bool, pc: Pc, ev: Event, rs: seq<DialResult>, e: Ending, g: Log)
    requires Plausible(cfg, rs, e) && Agrees(cfg, pc, rs, e) && (pc.MustRelease? || pc.Released? || pc.Done?)
    requires Step(cfg, pc, ev).Some?
    ensures StaysInAttempt(cfg, pc, ev, rs, e, g)
  {
  }

  lemma StepWhileClosed(cfg: bool, pc: Pc, ev: Event, rs: seq<DialResult>, e: Ending, g: Log)
    requires Plausible(cfg, rs, e) && Agrees(cfg, pc, rs, e) && !HasHandle(pc) && !pc.Start? && !pc.Refused?
    requires Step(cfg, pc, ev).Some? && !(pc.DeviceWait? && ev == SeeDevice(true))
    ensures StaysInAttempt(cfg, pc, ev, rs, e, g)
  {
    hide Plausible, Agrees, Step, StaysInAttempt;
    match pc {
      case NextAttempt(_) => StepNextAttempt(cfg, pc, ev, rs, e, g);
      case BridgeWait(_, _) => StepBridgeWait(cfg, pc, ev, rs, e, g);
      case DeviceWait(_) => StepDeviceWait(cfg, pc, ev, rs, e, g);
      case _ => StepReleasing(cfg, pc, ev, rs, e, g);
    }
  }

  lemma RetriesSnoc(cfg: bool, rs: seq<DialResult>, r: DialResult)
    ensures Retries(cfg, rs + [r])
         == Then(Then(FailedDial(Retries(cfg, rs), cfg, r), SeeBridge(false)), SeeDevice(true))
  {
    assert (rs + [r])[..|rs|] == rs;
  }

  lemma RetryIsPlausible(cfg: bool, n: nat, rs: seq<DialResult>, e: Ending)
    requires Plausible(cfg, rs, e) && Agrees(cfg, DeviceWait(n), rs, e)
    ensures e.DeviceGone? && Plausible(cfg, rs + [e.r], Success) && n == |rs| + 2
  {
  }

  lemma FitsRetry(cfg: bool, n: nat, rs: seq<DialResult>, e: Ending, g: Log)
    requires Plausible(cfg, rs, e) && Agrees(cfg, DeviceWait(n), rs, e)
    requires g == SoFar(Retries(cfg, rs), cfg, DeviceWait(n), e)
    ensures e.DeviceGone? && Plausible(cfg, rs + [e.r], Success)
    ensures Fits(cfg, NextAttempt(n), rs + [e.r], Success, Then(g, SeeDevice(true)))
  {
    RetryIsPlausible(cfg, n, rs, e);
    RetriesSnoc(cfg, rs, e.r);
  }

  lemma FitsFirst(cfg: bool, pc: Pc, ev: Event, g: Log)
    requires pc.Start? || pc.Refused?
    requires Fits(cfg, pc, [], Success, g) && Step(cfg, pc, ev).Some?
    ensures Plausible(cfg, [], Success) && Fits(cfg, Step(cfg, pc, ev).value, [], Success, Kept(g, ev))
  {
  }

  lemma FitsStep(cfg: bool, pc: Pc, ev: Event, rs: seq<DialResult>, e: Ending, g: Log)
    requires Plausible(cfg, rs, e) && Fits(cfg, pc, rs, e, g) && !pc.Start? && !pc.Refused?
    requires Step(cfg, pc, ev).Some? && !(pc.DeviceWait? && ev == SeeDevice(true))
    ensures Plausible(cfg, rs, NextEnding(pc, ev, e))
    ensures Fits(cfg, Step(cfg, pc, ev).value, rs, NextEnding(pc, ev, e), Kept(g, ev))
  {
    if BeforeResult(pc) {
      StepBeforeResult(cfg, pc, ev, rs, e, Retries(cfg, rs));
    } else if HasHandle(pc) {
      StepAfterResult(cfg, pc, ev, rs, e, Retries(cfg, rs));
    } else {
      StepWhileClosed(cfg, pc, ev, rs, e, Retries(cfg, rs));
    }
  }

  // Every trace, complete or not, has the shape its program point tells.
  lemma {:induction false} TraceFits(cfg: bool, tr: Log)
    returns (rs: seq<DialResult>, e: Ending)
    requires Run(cfg, tr).Some?
    ensures Plausible(cfg, rs, e)
    ensures Fits(cfg, Run(cfg, tr).value, rs, e, Gist(tr))
  {
    if tr == Empty {
      return [], Success;
    }
    rs, e := TraceFits(cfg, tr.before);
    var pc, g := Run(cfg, tr.before).value, Gist(tr.before);
    if pc.Start? || pc.Refused? {
      FitsFirst(cfg, pc, tr.last, g);
      return [], Success;
    } else if pc.DeviceWait? && tr.last == SeeDevice(true) {
      FitsRetry(cfg, pc.n, rs, e, g);
      return rs + [e.r], Success;
    } else {
      FitsStep(cfg, pc, tr.last, rs, e, g);
      return rs, NextEnding(pc, tr.last, e);
    }
  }

  // A finished run either never got the lock, or tells one of the plausible stories.
  lemma EveryRunTellsAStory(cfg: bool, tr: Log, reply: Reply)
    returns (rs: seq<DialResult>, e: Ending)
    requires Run(cfg, tr) == Some(Done(reply))
    ensures Plausible(cfg, rs, e)
    ensures || (Gist(tr) == REFUSED && reply == Failed)
            || (Gist(tr) == Story(cfg, rs, e) && reply == ReplyOf(e))
  {
    rs, e := TraceFits(cfg, tr);
  }

  // Conversely every plausible story is told by some run, so the stories are exactly the gists.

  // The record `g` is a run that reaches `pc`, and it is its own gist.
  ghost predicate Reaches(cfg: bool, g: Log, pc: Pc) {
    Run(cfg, g) == Some(pc) && Gist(g) == g
  }

  lemma Extend(cfg: bool, g: Log, pc: Pc, e: Event) returns (pc': Pc)
    requires Reaches(cfg, g, pc) && Significant(e) && Step(cfg, pc, e).Some?
    ensures Some(pc') == Step(cfg, pc, e) && Reaches(cfg, Then(g, e), pc')
  {
    pc' := Step(cfg, pc, e).value;
  }

  lemma SetupRuns(cfg: bool, g: Log, n: nat)
    requires Reaches(cfg, g, NextAttempt(n))
    ensures Reaches(cfg, Setup(g, cfg), Ready(n))
  {
    hide Reaches;
    var pc := Extend(cfg, g, NextAttempt(n), Open(true));
    pc := Extend(cfg, Then(g, Open(true)), pc, Init(true));
    if cfg {
      pc := Extend(cfg, Then(Then(g, Open(true)), Init(true)), pc, Configure(true));
    }
  }

  lemma FailedDialRuns(cfg: bool, g: Log, n: nat, r: DialResult)
    requires Reaches(cfg, g, NextAttempt(n)) && r != Connect
    ensures Reaches(cfg, FailedDial(g, cfg, r), Step(cfg, HungUp(n, r), Close).value)
  {
    hide Reaches;
    SetupRuns(cfg, g, n);
    var s := Setup(g, cfg);
    var pc := Extend(cfg, s, Ready(n), Dial(Some(r)));
    pc := Extend(cfg, Then(s, Dial(Some(r))), pc, Hangup);
    pc := Extend(cfg, Then(Then(s, Dial(Some(r))), Hangup), pc, Close);
  }

  lemma OneRetryRuns(cfg: bool, g: Log, n: nat, r: DialResult)
    requires Reaches(cfg, g, NextAttempt(n)) && n < MAX_RETRIES && Retryable(r)
    ensures Reaches(cfg, Then(Then(FailedDial(g, cfg, r), SeeBridge(false)), SeeDevice(true)), NextAttempt(n + 1))
  {
    hide Reaches, FailedDial;
    FailedDialRuns(cfg, g, n, r);
    var f := FailedDial(g, cfg, r);
    var pc := Extend(cfg, f, BridgeWait(n + 1, false), SeeBridge(false));
    pc := Extend(cfg, Then(f, SeeBridge(false)), pc, SeeDevice(true));
  }

  lemma {:induction false} RetriesRun(cfg: bool, rs: seq<DialResult>)
    requires |rs| < MAX_RETRIES && forall i :: 0 <= i < |rs| ==> Retryable(rs[i])
    ensures Reaches(cfg, Retries(cfg, rs), NextAttempt(|rs| + 1))
  {
    if rs == [] {
      var pc := Extend(cfg, Empty, Start, Acquire(true));
    } else {
      hide Reaches, FailedDial, Step;
      var n, r := |rs|, rs[|rs| - 1];
      RetriesRun(cfg, rs[..n - 1]);
      OneRetryRuns(cfg, Retries(cfg, rs[..n - 1]), n, r);
    }
  }

  lemma ScrappedRuns(cfg: bool, g: Log, n: nat, e: Ending)
    requires Reaches(cfg, g, NextAttempt(n))
    requires e.InitFailed? || (e.ConfigureFailed? && cfg) || e.WriteFailed?
    ensures Reaches(cfg, Scrapped(g, cfg, e), Scrap)
  {
    hide Reaches;
    SetupRuns(cfg, g, n);
    var pc := Extend(cfg, g, NextAttempt(n), Open(true));
    if e.InitFailed? {
      pc := Extend(cfg, Then(g, Open(true)), pc, Init(false));
    } else if e.ConfigureFailed? {
      pc := Extend(cfg, Then(g, Open(true)), pc, Init(true));
      pc := Extend(cfg, Then(Then(g, Open(true)), Init(true)), pc, Configure(false));
    } else {
      pc := Extend(cfg, Setup(g, cfg), Ready(n), Dial(None));
      pc := Extend(cfg, Then(Setup(g, cfg), Dial(None)), pc, Hangup);
    }
  }

  // Where a run stands after a finale in attempt `n`, before it releases or returns.
  function AtEnd(n: nat, e: Ending): Pc {
    match e
    case Success => Online
    case BridgeStuck(_) => BridgeWait(n + 1, false)
    case DeviceGone(_) => DeviceWait(n + 1)
    case _ => MustRelease(ReplyOf(e))
  }

  lemma ShortFinaleRuns(cfg: bool, g: Log, n: nat, e: Ending)
    requires Reaches(cfg, g, NextAttempt(n)) && (e.ConfigureFailed? ==> cfg)
    requires e.Success? || e.OpenFailed? || e.InitFailed? || e.ConfigureFailed? || e.WriteFailed?
    ensures Reaches(cfg, Finale(g, cfg, e), if e.Success? then Online else MustRelease(Failed))
  {
    hide Reaches;
    if e.Success? {
      SetupRuns(cfg, g, n);
      var pc := Extend(cfg, Setup(g, cfg), Ready(n), Dial(Some(Connect)));
      return;
    }
    if e.OpenFailed? {
      var pc := Extend(cfg, g, NextAttempt(n), Open(false));
      return;
    }
    ScrappedRuns(cfg, g, n, e);
    var pc := Extend(cfg, Scrapped(g, cfg, e), Scrap, Close);
  }

  lemma LongFinaleRuns(cfg: bool, g: Log, n: nat, e: Ending)
    requires Reaches(cfg, g, NextAttempt(n))
    requires e.NoMoreTries? || e.BridgeStuck? || e.DeviceGone?
    requires e.r != Connect && (e.NoMoreTries? <==> !(Retryable(e.r) && n < MAX_RETRIES))
    ensures Reaches(cfg, Finale(g, cfg, e), AtEnd(n, e))
  {
    hide Reaches;
    FailedDialRuns(cfg, g, n, e.r);
    if e.DeviceGone? {
      var pc := Extend(cfg, FailedDial(g, cfg, e.r), BridgeWait(n + 1, false), SeeBridge(false));
    }
  }

  // The run behind a story that ends with `f`; only a stuck bridge needs events the gist omits.
  function Witness(f: Log, e: Ending): Log {
    var stuck := if e.BridgeStuck? then Then(Then(f, Terminate), SeeBridge(true)) else f;
    Then(Freed(stuck, e), Return(ReplyOf(e)))
  }

  // The last steps: release if the lock was not handed over, then return.
  lemma LastSteps(cfg: bool, f: Log, pc: Pc, e: Ending)
    requires Run(cfg, f) == Some(pc)
    requires if e.Success? then pc.Online? else pc == MustRelease(ReplyOf(e)) || (e.DeviceGone? && pc.DeviceWait?)
    ensures Run(cfg, Then(Freed(f, e), Return(ReplyOf(e)))) == Some(Done(ReplyOf(e)))
    ensures Gist(Then(Freed(f, e), Return(ReplyOf(e)))) == Then(Freed(Gist(f), e), Return(ReplyOf(e)))
  {
    if !e.Success? {
      assert Run(cfg, Then(f, Release)) == Some(Released(ReplyOf(e)));
    }
  }

  lemma StuckBridge(cfg: bool, f: Log, n: nat)
    requires Reaches(cfg, f, BridgeWait(n, false))
    ensures Run(cfg, Then(Then(f, Terminate), SeeBridge(true))) == Some(MustRelease(Failed))
    ensures Gist(Then(Then(f, Terminate), SeeBridge(true))) == f
  {
    var t := Then(f, Terminate);
    assert Run(cfg, t) == Some(BridgeWait(n, true)) && Gist(t) == f;
  }

  lemma WitnessRuns(cfg: bool, f: Log, n: nat, e: Ending)
    requires Reaches(cfg, f, AtEnd(n, e))
    ensures Run(cfg, Witness(f, e)) == Some(Done(ReplyOf(e)))
    ensures Gist(Witness(f, e)) == Then(Freed(f, e), Return(ReplyOf(e)))
  {
    if e.BridgeStuck? {
      StuckBridge(cfg, f, n + 1);
      LastSteps(cfg, Then(Then(f, Terminate), SeeBridge(true)), MustRelease(Failed), e);
    } else {
      LastSteps(cfg, f, AtEnd(n, e), e);
    }
  }

  lemma EveryStoryIsTold(cfg: bool, rs: seq<DialResult>, e: Ending) returns (tr: Log)
    requires Plausible(cfg, rs, e)
    ensures Run(cfg, tr) == Some(Done(ReplyOf(e))) && Gist(tr) == Story(cfg, rs, e)
  {
    var g, n := Retries(cfg, rs), |rs| + 1;
    RetriesRun(cfg, rs);
    if e.NoMoreTries? || e.BridgeStuck? || e.DeviceGone? {
      LongFinaleRuns(cfg, g, n, e);
    } else {
      ShortFinaleRuns(cfg, g, n, e);
    }
    tr := Witness(Finale(g, cfg, e), e);
    WitnessRuns(cfg, Finale(g, cfg, e), n, e);
  }

  // ------------------------------------------------------------------ counting

  function Opens(tr: Log): nat {
    tr.Times(Open(true)) + tr.Times(Open(false))
  }

  // A reply is honest if it says CONNECT exactly when it carries a modem.
  predicate Honest(reply: Reply) {
    reply.Answered? ==> (reply.result == Connect <==> reply.modem)
  }

  const HANDED_OVER := Answered(Connect, true)

  datatype Tally = Tally(opens: nat, missed: nat, closed: nat, acquired: nat, released: nat) {
    function Add(e: Event): Tally {
      match e
      case Open(ok) => if ok then this.(opens := opens + 1) else this.(missed := missed + 1)
      case Close => this.(closed := closed + 1)
      case Acquire(ok) => if ok then this.(acquired := acquired + 1) else this
      case Release => this.(released := released + 1)
      case _ => this
    }
  }

  function TallyOf(tr: Log): Tally {
    Tally(tr.Times(Open(true)), tr.Times(Open(false)), tr.Times(Close),
          tr.Times(Acquire(true)), tr.Times(Release))
  }

  // Between attempts `n` is the next attempt, within an attempt the current one.
  predicate BetweenAttempts(pc: Pc) {
    pc.NextAttempt? || pc.BridgeWait? || pc.DeviceWait?
  }

  predicate WithinAttempt(pc: Pc) {
    pc.Opened? || pc.Initialised? || pc.Ready? || pc.Dialled? || pc.HungUp?
  }

  predicate Sane(pc: Pc) {
    && (BetweenAttempts(pc) || WithinAttempt(pc) ==> 1 <= pc.n <= MAX_RETRIES)
    && (pc.Dialled? || pc.HungUp? ==> pc.r != Connect)
    && (pc.MustRelease? || pc.Released? ==> pc.reply != HANDED_OVER)
    && (pc.MustRelease? || pc.Released? || pc.Done? ==> Honest(pc.reply))
  }

  function OpensAllowed(pc: Pc): int {
    if pc.Start? || pc.Refused? then 0
    else if BetweenAttempts(pc) then pc.n - 1
    else if WithinAttempt(pc) then pc.n
    else MAX_RETRIES
  }

  // What the program point says about the past: how many attempts, and what must be given back.
  ghost predicate Balanced(pc: Pc, t: Tally) {
    && Sane(pc)
    && t.opens == t.closed + (if HasHandle(pc) || pc == Done(HANDED_OVER) then 1 else 0)
    && t.acquired == t.released + (if Holding(pc) || pc == Done(HANDED_OVER) then 1 else 0)
    && (if pc.Start? || pc.Refused? then t.acquired == 0
        else if pc == Done(Failed) then t.acquired <= 1
        else t.acquired == 1)
    && (t.acquired == 0 ==> t.opens + t.missed == 0)
    && t.opens + t.missed <= OpensAllowed(pc)
  }

  lemma BalancedStepWithin(cfg: bool, pc: Pc, e: Event, t: Tally)
    requires WithinAttempt(pc) && Balanced(pc, t) && Step(cfg, pc, e).Some?
    ensures Balanced(Step(cfg, pc, e).value, t.Add(e))
  {
  }

  lemma BalancedStepBetween(cfg: bool, pc: Pc, e: Event, t: Tally)
    requires BetweenAttempts(pc) && Balanced(pc, t) && Step(cfg, pc, e).Some?
    ensures Balanced(Step(cfg, pc, e).value, t.Add(e))
  {
  }

  lemma BalancedStepEnding(cfg: bool, pc: Pc, e: Event, t: Tally)
    requires (pc.MustRelease? || pc.Released? || pc.Online? || pc.Refused? || pc.Done?)
    requires Balanced(pc, t) && Step(cfg, pc, e).Some?
    ensures Balanced(Step(cfg, pc, e).value, t.Add(e))
  {
  }

  lemma BalancedStepElsewhere(cfg: bool, pc: Pc, e: Event, t: Tally)
    requires !WithinAttempt(pc) && !BetweenAttempts(pc) && Balanced(pc, t) && Step(cfg, pc, e).Some?
    ensures Balanced(Step(cfg, pc, e).value, t.Add(e))
  {
    if pc.MustRelease? || pc.Released? || pc.Online? || pc.Refused? || pc.Done? {
      BalancedStepEnding(cfg, pc, e, t);
      return;
    }
  }

  lemma TallyStep(tr: Log)
    requires tr.Then?
    ensures TallyOf(tr) == TallyOf(tr.before).Add(tr.last)
  {
  }

  lemma {:induction false} LedgerHolds(cfg: bool, tr: Log)
    requires Run(cfg, tr).Some?
    ensures Balanced(Run(cfg, tr).value, TallyOf(tr))
  {
    if tr == Empty {
      return;
    }
    hide Step, Balanced, TallyOf;
    if tr.Then? {
      LedgerHolds(cfg, tr.before);
      var pc := Run(cfg, tr.before).value;
      if WithinAttempt(pc) {
        BalancedStepWithin(cfg, pc, tr.last, TallyOf(tr.before));
      } else if BetweenAttempts(pc) {
        BalancedStepBetween(cfg, pc, tr.last, TallyOf(tr.before));
      } else {
        BalancedStepElsewhere(cfg, pc, tr.last, TallyOf(tr.before));
      }
      TallyStep(tr);
    }
  }

  lemma BalanceWhenDone(t: Tally, reply: Reply)
    requires Balanced(Done(reply), t)
    ensures t.opens + t.missed <= MAX_RETRIES && Honest(reply)
    ensures t.opens == t.closed + if reply == HANDED_OVER then 1 else 0
    ensures t.acquired > 0 ==> t.released == if reply == HANDED_OVER then 0 else 1
    ensures t.acquired == 0 ==> t.opens + t.missed == t.released == 0 && reply == Failed
    ensures reply == HANDED_OVER ==> t.acquired == 1
    ensures reply.Answered? ==> t.acquired == 1
  {
  }

  // Whatever the modem, the bridge and the device do: at most three opens, every open handle is
  // closed again exactly once unless it is handed over, and the lock is released exactly once
  // unless it is handed over (or was never got).
  lemma FinishedRunBalances(cfg: bool, tr: Log, reply: Reply)
    requires Run(cfg, tr) == Some(Done(reply))
    ensures Opens(tr) <= MAX_RETRIES
    ensures tr.Times(Open(true)) == tr.Times(Close) + if reply == HANDED_OVER then 1 else 0
    ensures tr.Has(Acquire(true)) ==> tr.Times(Release) == if reply == HANDED_OVER then 0 else 1
    ensures !tr.Has(Acquire(true)) ==> Opens(tr) == tr.Times(Release) == 0 && reply == Failed
  {
    hide Run, Step, Balanced;
    LedgerHolds(cfg, tr);
    BalanceWhenDone(TallyOf(tr), Run(cfg, tr).value.reply);
  }

  // The reply says CONNECT exactly when it carries a modem, and exactly then the lock and the
  // open device are still with this dial; ResultConnect being the zero value never leaks out.
  lemma ConnectIffModem(cfg: bool, tr: Log, r: DialResult, modem: bool)
    requires Run(cfg, tr) == Some(Done(Answered(r, modem)))
    ensures r == Connect <==> modem
    ensures modem <==> !tr.Has(Release)
    ensures modem <==> tr.Times(Open(true)) == tr.Times(Close) + 1
  {
    hide Run, Step, Balanced;
    LedgerHolds(cfg, tr);
    BalanceWhenDone(TallyOf(tr), Run(cfg, tr).value.reply);
  }

  // Waiting events aside, a trace and its gist contain the same events equally often.
  lemma {:induction false} GistKeepsCounts(tr: Log, e: Event)
    requires Significant(e)
    ensures Gist(tr).Times(e) == tr.Times(e)
  {
    if tr.Then? {
      GistKeepsCounts(tr.before, e);
    }
  }

  // The release of a failed run comes after its last open and its last close.
  lemma ReleaseComesLast(cfg: bool, tr: Log, reply: Reply)
    returns (body: Log)
    requires Run(cfg, tr) == Some(Done(reply)) && tr.Has(Release)
    ensures Gist(tr) == Then(Then(body, Release), Return(reply))
    ensures !body.Has(Release)
  {
    hide Run, Step, Balanced;
    var rs, e := EveryRunTellsAStory(cfg, tr, reply);
    GistKeepsCounts(tr, Release);
    LedgerHolds(cfg, tr);
    BalanceWhenDone(TallyOf(tr), reply);
    assert Gist(tr) != REFUSED;
    body := Finale(Retries(cfg, rs), cfg, e);
  }
}
