/**
 The dial goroutine as code: `acquireAndDial` and `dialAttempt` of internal/tui/dialing.go with
 the wait loops of internal/tui/bridge.go.  Everything the environment decides is left open;
 every effect goes through `Emit`, which admits only what the dial protocol allows, in the order
 of module DialOrder, and what the environment answers.
 */
module DialCode {
  import opened Wrappers
  import opened DialProtocol
  import opened DialOrder
  import opened Sites
  import opened DeviceLocks

  // Milliseconds.
  const BRIDGE_EXIT_TIMEOUT := 15000
  const BRIDGE_POLL_INTERVAL := 500
  const BRIDGE_KILL_GRACE := 2000
  const BRIDGE_POLL_ITERATIONS_MAX := 40
  const DEVICE_READY_TIMEOUT := 10000
  const DEVICE_POLL_INTERVAL := 500
  const DEVICE_POLL_ITERATIONS_MAX := 25
  const RETRY_SETTLE_DELAY := 1000

  // `k` rounds of sleeping and looking in vain, after `g`.
  function Polls(g: Log, k: nat, ms: nat, e: Event): Log {
    if k == 0 then g else Then(Then(Polls(g, k - 1, ms, e), Sleep(ms)), e)
  }

  lemma PollsMore(g: Log, k: nat, ms: nat, e: Event)
    ensures Polls(g, 0, ms, e) == g
    ensures Then(Then(Polls(g, k, ms, e), Sleep(ms)), e) == Polls(g, k + 1, ms, e)
  {
  }

  // What the environment says when it is asked: whether something is so, or what a dial gave.
  datatype Answer = Answer(yes: bool, outcome: Option<DialResult>)

  predicate Echoes(e: Event, a: Answer) {
    match e
    case Acquire(ok) => ok ==> a.yes
    case SeeBridge(yes) => yes == a.yes
    case SeeDevice(yes) => yes == a.yes
    case Open(yes) => yes == a.yes
    case Init(yes) => yes == a.yes
    case Configure(yes) => yes == a.yes
    case Dial(outcome) => outcome == a.outcome
    case _ => true
  }

  function Size(g: Log): nat {
    if g.Empty? then 0 else 1 + Size(g.before)
  }

  // The outcomes recorded are those the environment gave.
  ghost predicate Faithful(g: Log, answers: nat -> Answer) {
    g.Then? ==> Faithful(g.before, answers) && Echoes(g.last, answers(Size(g.before)))
  }

  // The steps of one attempt, and those that give the lock back.

  lemma AttemptSteps(cfg: bool, n: nat)
    ensures forall ok :: Step(cfg, NextAttempt(n), Open(ok)) == Some(if ok then Opened(n) else MustRelease(Failed))
    ensures forall ok :: Step(cfg, Opened(n), Init(ok)) ==
                         Some(if !ok then Scrap else if cfg then Initialised(n) else Ready(n))
    ensures cfg ==> forall ok :: Step(cfg, Initialised(n), Configure(ok)) == Some(if ok then Ready(n) else Scrap)
    ensures forall o :: Step(cfg, Ready(n), Dial(o)) ==
                        Some(if o.None? then Broken else if o.value == Connect then Online else Dialled(n, o.value))
    ensures Step(cfg, Broken, Hangup) == Some(Scrap) && Step(cfg, Scrap, Close) == Some(MustRelease(Failed))
  {
  }

  lemma WaitSteps(cfg: bool, n: nat)
    ensures forall k, ms :: Step(cfg, BridgeWait(n, k), Sleep(ms)) == Some(BridgeWait(n, k))
    ensures Step(cfg, BridgeWait(n, false), Terminate) == Some(BridgeWait(n, true))
    ensures forall k, yes :: Step(cfg, BridgeWait(n, k), SeeBridge(yes)) ==
              Some(if !yes then DeviceWait(n) else if k then MustRelease(Failed) else BridgeWait(n, k))
    ensures forall ms :: Step(cfg, DeviceWait(n), Sleep(ms)) == Some(DeviceWait(n))
    ensures forall ms :: Step(cfg, NextAttempt(n), Sleep(ms)) == Some(NextAttempt(n))
    ensures forall yes :: Step(cfg, DeviceWait(n), SeeDevice(yes)) ==
                          Some(if yes then NextAttempt(n) else DeviceWait(n))
  {
  }

  lemma ReleaseSteps(cfg: bool, reply: Reply)
    ensures Step(cfg, MustRelease(reply), Release) == Some(Released(reply))
    ensures forall n :: Step(cfg, DeviceWait(n), Release) == Some(Released(Failed))
    ensures Step(cfg, Released(reply), Return(reply)) == Some(Done(reply))
  {
  }

  class Dialer {
    const answers: nat -> Answer
    const site: Site
    const lock: DeviceLock
    var trace: Log
    var clock: nat
    ghost var waitFrom: nat  // when the wait for the bridge, or for the device, began

    constructor (site: Site, lock: DeviceLock, now: nat, answers: nat -> Answer)
      ensures this.site == site && this.lock == lock && trace == Empty && clock == now
      ensures this.answers == answers && waitFrom == now
    {
      this.answers := answers;
      this.site := site;
      this.lock := lock;
      trace := Empty;
      clock := now;
      waitFrom := now;
    }

    predicate Configurable() {
      site.modemInit != []
    }

    ghost function At(): Option<Pc>
      reads this
    {
      Run(Configurable(), trace)
    }

    ghost predicate Truthful()
      reads this
    {
      Faithful(trace, answers) && InOrder(trace)
    }

    // The run has ended by giving the lock back, with this reply.
    ghost predicate GaveUp(tr: Log, reply: Reply) {
      Last2(tr, Release, Return(reply))
    }

    // If it ended because the bridge stayed, or the device stayed away, the whole time allowed for
    // that had passed.
    ghost predicate WaitedOut()
      reads this
    {
      trace.Then? && trace.before.Then? ==>
        var g := trace.before.before;
        && (BridgeStayed(g) ==> clock >= waitFrom + 15000 + 2000)
        && (Last(g, SeeDevice(false)) ==> clock >= waitFrom + 10000)
    }

    // What the environment says now.
    function Asked(): Answer
      reads this
    {
      answers(Size(trace))
    }

    method Emit(e: Event)
      requires At().Some? && Step(Configurable(), At().value, e).Some?
      requires Echoes(e, Asked()) && MayFollow(trace, e)
      modifies this
      ensures trace == Then(old(trace), e)
      ensures old(Truthful()) ==> Truthful()
      ensures At() == Step(Configurable(), old(At()).value, e)
      ensures clock >= old(clock) + if e.Sleep? then e.ms else 0
      ensures waitFrom == if e == Close || e == SeeBridge(false) then clock else old(waitFrom)
      ensures DialsMade(trace) == old(DialsMade(trace)) + if e.Dial? && e.outcome.Some? then 1 else 0
    {
      var delay :| 0 <= delay;
      trace := Then(trace, e);
      clock := clock + delay + (if e.Sleep? then e.ms else 0);
      if e == Close || e == SeeBridge(false) {
        waitFrom := clock;
      }
    }

    method BridgeProcessRunning() returns (running: bool)
      requires At().Some? && At().value.BridgeWait? && MayFollow(trace, SeeBridge(Asked().yes))
      modifies this
      ensures running == old(Asked().yes) && trace == Then(old(trace), SeeBridge(running))
      ensures old(Truthful()) ==> Truthful()
      ensures At() == Step(Configurable(), old(At()).value, SeeBridge(running))
      ensures clock >= old(clock) && waitFrom == if running then old(waitFrom) else clock
      ensures DialsMade(trace) == old(DialsMade(trace))
    {
      running := Asked().yes;
      Emit(SeeBridge(running));
    }

    method DevicePresent() returns (present: bool)
      requires At().Some? && At().value.DeviceWait? && MayFollow(trace, SeeDevice(Asked().yes))
      modifies this
      ensures present == old(Asked().yes) && trace == Then(old(trace), SeeDevice(present))
      ensures old(Truthful()) ==> Truthful()
      ensures At() == Step(Configurable(), old(At()).value, SeeDevice(present))
      ensures clock >= old(clock) && waitFrom == old(waitFrom)
      ensures DialsMade(trace) == old(DialsMade(trace))
    {
      present := Asked().yes;
      Emit(SeeDevice(present));
    }

    // Kills the bridge process and looks once more.
    method KillBridge(ghost n: nat) returns (ok: bool)
      requires At() == Some(BridgeWait(n, false)) && Last(trace, SeeBridge(true)) && !BridgeStayed(trace)
      requires Truthful()
      modifies this
      ensures Truthful()
      ensures At() == Some(if ok then DeviceWait(n) else MustRelease(Failed))
      ensures trace == Then(Then(Then(old(trace), Terminate), Sleep(2000)), SeeBridge(!ok))
      ensures clock >= old(clock) + 2000 && waitFrom == if ok then clock else old(waitFrom)
      ensures !ok ==> BridgeStayed(trace)
      ensures DialsMade(trace) == DialsMade(old(trace))
    {
      hide Run, Faithful, InOrder, Size, DialsMade, Step;
      WaitSteps(Configurable(), n);
      hide MayFollow, RetryIsDue;
      BridgeWaitOrder(trace);
      Emit(Terminate);
      BridgeWaitOrder(trace);
      Emit(Sleep(BRIDGE_KILL_GRACE));
      BridgeWaitOrder(trace);
      var running := BridgeProcessRunning();
      return !running;
    }

    // Waits for the bridge process to exit and kills it after the timeout.  `polls` is the
    // number of sleeps before the bridge was seen gone or was killed.
    method WaitBridgeExit(ghost n: nat) returns (ok: bool, polls: nat, killed: bool)
      requires At() == Some(BridgeWait(n, false)) && RetryIsDue(trace)
      requires Truthful()
      modifies this
      ensures Truthful()
      ensures At() == Some(if ok then DeviceWait(n) else MustRelease(Failed))
      ensures polls <= 31 < BRIDGE_POLL_ITERATIONS_MAX
      ensures killed ==> clock >= old(clock) + 15000 + 2000
      ensures !ok ==> killed && BridgeStayed(trace) && waitFrom == old(waitFrom)
      ensures ok ==> Last(trace, SeeBridge(false)) && waitFrom == clock
      ensures clock >= old(clock)
      ensures DialsMade(trace) == DialsMade(old(trace))
      ensures var g := old(trace);
              if killed then
                trace == Then(Then(Then(Polls(Then(g, SeeBridge(true)), polls, 500, SeeBridge(true)),
                                        Terminate), Sleep(2000)), SeeBridge(!ok))
              else if polls == 0 then trace == Then(g, SeeBridge(false))
              else trace == Then(Then(Polls(Then(g, SeeBridge(true)), polls - 1, 500, SeeBridge(true)),
                                      Sleep(500)), SeeBridge(false))
    {
      hide Run, Faithful, InOrder, Size, DialsMade, Step;
      WaitSteps(Configurable(), n);
      LookIsNoStay(trace);
      hide MayFollow, RetryIsDue, Polls, BridgeStayed;
      PollsMore(Then(trace, SeeBridge(true)), 0, 500, SeeBridge(true));
      BridgeWaitOrder(trace);
      var running := BridgeProcessRunning();
      if !running {
        return true, 0, false;
      }
      var deadline := clock + BRIDGE_EXIT_TIMEOUT;
      var i := 0;
      while i < BRIDGE_POLL_ITERATIONS_MAX
        invariant At() == Some(BridgeWait(n, false)) && Truthful()
        invariant 0 <= i <= 31
        invariant clock >= deadline - BRIDGE_EXIT_TIMEOUT + i * BRIDGE_POLL_INTERVAL
        invariant deadline >= old(clock) + BRIDGE_EXIT_TIMEOUT
        invariant trace == Polls(Then(old(trace), SeeBridge(true)), i, 500, SeeBridge(true))
        invariant Last(trace, SeeBridge(true)) && !BridgeStayed(trace) && waitFrom == old(waitFrom)
        invariant DialsMade(trace) == DialsMade(old(trace))
      {
        if clock > deadline {
          break;
        }
        BridgeWaitOrder(trace);
        LookIsNoStay(trace);
        Emit(Sleep(BRIDGE_POLL_INTERVAL));
        BridgeWaitOrder(trace);
        running := BridgeProcessRunning();
        if !running {
          return true, i + 1, false;
        }
        PollsMore(Then(old(trace), SeeBridge(true)), i, 500, SeeBridge(true));
        i := i + 1;
      }
      ok := KillBridge(n);
      return ok, i, true;
    }

    // Waits for the device file to reappear.
    method WaitDeviceReady(ghost n: nat) returns (ok: bool, polls: nat)
      requires At() == Some(DeviceWait(n)) && Last(trace, SeeBridge(false))
      requires Truthful()
      modifies this
      ensures Truthful()
      ensures At() == Some(if ok then NextAttempt(n) else DeviceWait(n))
      ensures polls <= 21 < DEVICE_POLL_ITERATIONS_MAX
      ensures !ok ==> clock >= old(clock) + 10000
      ensures clock >= old(clock) && waitFrom == old(waitFrom)
      ensures Last(trace, SeeDevice(ok))
      ensures DialsMade(trace) == DialsMade(old(trace))
      ensures var g := old(trace);
              if !ok then trace == Polls(Then(g, SeeDevice(false)), polls, 500, SeeDevice(false))
              else if polls == 0 then trace == Then(g, SeeDevice(true))
              else trace == Then(Then(Polls(Then(g, SeeDevice(false)), polls - 1, 500, SeeDevice(false)),
                                      Sleep(500)), SeeDevice(true))
    {
      hide Run, Faithful, InOrder, Size, DialsMade, Step;
      hide Polls;
      WaitSteps(Configurable(), n);
      PollsMore(Then(trace, SeeDevice(false)), 0, 500, SeeDevice(false));
      var present := DevicePresent();
      if present {
        return true, 0;
      }
      var deadline := clock + DEVICE_READY_TIMEOUT;
      var i := 0;
      while i < DEVICE_POLL_ITERATIONS_MAX
        invariant At() == Some(DeviceWait(n)) && Truthful()
        invariant 0 <= i <= 21
        invariant clock >= deadline - DEVICE_READY_TIMEOUT + i * DEVICE_POLL_INTERVAL
        invariant deadline >= old(clock) + DEVICE_READY_TIMEOUT
        invariant trace == Polls(Then(old(trace), SeeDevice(false)), i, 500, SeeDevice(false))
        invariant Last(trace, SeeDevice(false)) && waitFrom == old(waitFrom)
        invariant DialsMade(trace) == DialsMade(old(trace))
      {
        if clock > deadline {
          break;
        }
        Emit(Sleep(DEVICE_POLL_INTERVAL));
        present := DevicePresent();
        if present {
          return true, i + 1;
        }
        PollsMore(Then(old(trace), SeeDevice(false)), i, 500, SeeDevice(false));
        i := i + 1;
      }
      return false, i;
    }

    // The device is closed after a step of an attempt failed.
    method Scrap()
      requires At() == Some(DialProtocol.Scrap) && Truthful()
      requires Last(trace, Init(false)) || Last(trace, Configure(false)) || Last2(trace, Dial(None), Hangup)
      modifies this
      ensures Truthful() && At() == Some(MustRelease(Failed))
      ensures ReleaseIsDue(trace) && forall r :: !DialFailed(trace, r)
      ensures !BridgeStayed(trace) && !Last(trace, SeeDevice(false))
      ensures DialsMade(trace) == DialsMade(old(trace)) && clock >= old(clock)
    {
      hide Run, Faithful, InOrder, Size, DialsMade, ReleaseIsDue, DialFailed, BridgeStayed;
      Emit(Close);
      AttemptEnds(trace);
    }

    // One open, init, configure and dial cycle.
    method DialAttempt(ghost n: nat) returns (ok: bool, result: DialResult)
      requires At() == Some(NextAttempt(n)) && AttemptIsDue(trace)
      requires Truthful()
      modifies this
      ensures Truthful()
      ensures if ok then Last(trace, Dial(Some(result))) else ReleaseIsDue(trace) && forall r :: !DialFailed(trace, r)
      ensures DialsMade(trace) == DialsMade(old(trace)) + if ok then 1 else 0
      ensures !ok ==> !BridgeStayed(trace) && !Last(trace, SeeDevice(false))
      ensures clock >= old(clock)
      ensures At() == Some(if !ok then MustRelease(Failed)
                           else if result == Connect then Online
                           else Dialled(n, result))
    {
      hide Run, Faithful, InOrder, Size, DialsMade, Step;
      AttemptSteps(Configurable(), n);
      hide ReleaseIsDue, DialFailed, BridgeStayed;
      result := Connect;  // the zero value of DialResult
      ok := Asked().yes;
      Emit(Open(ok));
      if !ok {
        AttemptEnds(trace);
        return;
      }
      ok := Asked().yes;
      Emit(Init(ok));
      if !ok {
        Scrap();
        return;
      }
      if |site.modemInit| > 0 {
        ok := Asked().yes;
        Emit(Configure(ok));
        if !ok {
          Scrap();
          return;
        }
      }
      var outcome := Asked().outcome;
      Emit(Dial(outcome));
      if outcome.None? {
        Emit(Hangup);
        Scrap();
        return false, Connect;
      }
      return true, outcome.value;
    }

    // Every failure after a successful Acquire ends like this.
    method GiveBack(reply: Reply)
      requires At() == Some(MustRelease(reply)) || (At().Some? && At().value.DeviceWait? && reply == Failed)
      requires lock.activeSite == site.name && ReleaseIsDue(trace)
      requires if reply.Answered? then DialFailed(trace, reply.result) && !reply.modem
               else forall q :: !DialFailed(trace, q)
      requires Truthful()
      modifies this, lock
      ensures Truthful()
      ensures At() == Some(Done(reply)) && lock.activeSite == ""
      ensures trace == Then(Then(old(trace), Release), Return(reply))
      ensures clock >= old(clock) && waitFrom == old(waitFrom)
    {
      hide Run, Faithful, InOrder, Size, DialsMade, Step;
      ReleaseSteps(Configurable(), reply);
      lock.Release();
      Emit(Release);
      Emit(Return(reply));
    }

    // What comes between two attempts.
    method PrepareRetry(ghost n: nat) returns (ok: bool)
      requires At() == Some(BridgeWait(n, false)) && lock.activeSite == site.name
      requires Truthful() && RetryIsDue(trace) && clock >= waitFrom
      modifies this, lock
      ensures Truthful()
      ensures At() == Some(if ok then NextAttempt(n) else Done(Failed))
      ensures lock.activeSite == if ok then site.name else ""
      ensures ok ==> AttemptIsDue(trace) && DialsMade(trace) == DialsMade(old(trace))
      ensures !ok ==> GaveUp(trace, Failed) && WaitedOut()
    {
      hide Run, Faithful, InOrder, Size, DialsMade, Step;
      WaitSteps(Configurable(), n);
      var polls, killed;
      ok, polls, killed := WaitBridgeExit(n);
      if !ok {
        GiveBack(Failed);
        return;
      }
      ok, polls := WaitDeviceReady(n);
      if !ok {
        GiveBack(Failed);
        return;
      }
      Emit(Sleep(RETRY_SETTLE_DELAY));
    }

    method HangUp(ghost n: nat, ghost r: DialResult)
      requires At() == Some(Dialled(n, r)) && Last(trace, Dial(Some(r))) && r != Connect
      requires Truthful()
      modifies this
      ensures Truthful() && DialFailed(trace, r) && DialsMade(trace) == DialsMade(old(trace))
      ensures clock == waitFrom
      ensures At() == Some(if Retryable(r) && n < MAX_RETRIES then BridgeWait(n + 1, false)
                           else MustRelease(Answered(r, false)))
    {
      hide Run, Faithful, InOrder, Size, DialsMade;
      Emit(Hangup);
      Emit(Close);
    }

    // CONNECT: the message carries the modem, and the lock goes with it.
    method HandOver()
      requires At() == Some(Online) && Last(trace, Dial(Some(Connect)))
      requires Truthful()
      modifies this
      ensures Truthful() && At() == Some(Done(HANDED_OVER))
      ensures Last2(trace, Dial(Some(Connect)), Return(HANDED_OVER))
    {
      hide Run, Faithful, InOrder, Size, DialsMade;
      Emit(Return(HANDED_OVER));
    }

    // The retry loop, with the lock held.
    method DialWithRetries() returns (reply: Reply)
      requires At() == Some(NextAttempt(1)) && lock.activeSite == site.name
      requires Truthful() && Last(trace, Acquire(true)) && DialsMade(trace) == 0
      modifies this, lock
      ensures Truthful()
      ensures At() == Some(Done(reply))
      ensures if reply == HANDED_OVER then Last2(trace, Dial(Some(Connect)), Return(HANDED_OVER))
              else GaveUp(trace, reply) && WaitedOut()
      ensures lock.activeSite == if reply == HANDED_OVER then site.name else ""
    {
      hide Run, Faithful, InOrder, Size, DialsMade, Step, BridgeStayed, RetryIsDue, ReleaseIsDue;
      var lastResp := Connect;  // the zero value of DialResult
      var attempt := 1;
      while attempt <= MAX_RETRIES
        invariant 1 <= attempt <= MAX_RETRIES + 1
        invariant At() == Some(if attempt == 1 then NextAttempt(1)
                               else if attempt <= MAX_RETRIES then BridgeWait(attempt, false)
                               else MustRelease(Answered(lastResp, false)))
        invariant attempt > 1 ==> Retryable(lastResp)
        invariant lock.activeSite == site.name && Truthful()
        invariant DialsMade(trace) == attempt - 1
        invariant if attempt == 1 then Last(trace, Acquire(true))
                  else DialFailed(trace, lastResp) && clock >= waitFrom && lastResp != Connect
      {
        if attempt > 1 {
          FailedIsNoWait(trace, lastResp);
          var ready := PrepareRetry(attempt);
          if !ready {
            return Failed;
          }
        }
        var ok, result := DialAttempt(attempt);
        if !ok {
          GiveBack(Failed);
          return Failed;
        }
        if result == Connect {
          HandOver();
          return HANDED_OVER;
        }
        lastResp := result;
        HangUp(attempt, result);
        FailedIsNoWait(trace, result);
        if !Retryable(result) {
          GiveBack(Answered(result, false));
          return Answered(result, false);
        }
        attempt := attempt + 1;
      }
      FailedIsNoWait(trace, lastResp);
      GiveBack(Answered(lastResp, false));
      return Answered(lastResp, false);
    }

    // The whole goroutine, up to the message it returns.  The trace is a finished run of the
    // dial protocol, so all that is proved about such runs holds of it.
    method AcquireAndDial() returns (reply: Reply, acquired: bool)
      requires trace == Empty
      modifies this, lock
      ensures At() == Some(Done(reply)) && Truthful()
      ensures acquired <==> old(lock.activeSite) == "" && answers(0).yes
      ensures acquired ==> if reply == HANDED_OVER then Last2(trace, Dial(Some(Connect)), Return(HANDED_OVER))
                           else GaveUp(trace, reply) && WaitedOut()
      ensures acquired ==> Attempts(trace) + StuckCount(trace) + GoneCount(trace) == 1 + RetriesDue(trace)
      ensures !acquired ==> trace == REFUSED && reply == Failed
      ensures lock.activeSite == if reply == HANDED_OVER then site.name
                                 else if acquired then ""
                                 else old(lock.activeSite)
    {
      acquired := lock.Acquire(site.name, Asked().yes);
      Emit(Acquire(acquired));
      if !acquired {
        reply := Failed;
        Emit(Return(reply));
        return;
      }
      reply := DialWithRetries();
      EveryRetryIsMade(trace, reply);
    }
  }
}
