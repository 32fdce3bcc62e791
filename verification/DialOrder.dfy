/**
 Which event of a dial goroutine may directly follow which, told from the events alone: an
 attempt is open, init, configure and dial; a failed one ends with hangup and close; a retry is due
 after NO CARRIER or TIMEOUT while fewer than three dials have been made, and then the bridge is
 looked for, the device is looked for, and the next attempt made, unless one of the two waits fails.
 */
module DialOrder {
  import opened Wrappers
  import opened DialProtocol

  predicate Last(g: Log, e: Event) {
    g.Then? && g.last == e
  }

  predicate Last2(g: Log, d: Event, e: Event) {
    g.Then? && Last(g.before, d) && g.last == e
  }

  predicate Last3(g: Log, c: Event, d: Event, e: Event) {
    g.Then? && Last2(g.before, c, d) && g.last == e
  }

  // Results the modem or the timeout gave.
  function DialsMade(g: Log): nat {
    if g.Empty? then 0 else DialsMade(g.before) + if g.last.Dial? && g.last.outcome.Some? then 1 else 0
  }

  // The last attempt got result r and was hung up.
  predicate DialFailed(g: Log, r: DialResult) {
    Last3(g, Dial(Some(r)), Hangup, Close)
  }

  predicate RetryIsDue(g: Log) {
    (DialFailed(g, NoCarrier) || DialFailed(g, Timeout)) && DialsMade(g) < 3
  }

  // The bridge was still there after it had been told to end.
  predicate BridgeStayed(g: Log) {
    Last3(g, Terminate, Sleep(2000), SeeBridge(true))
  }

  predicate AttemptIsDue(g: Log) {
    Last(g, Acquire(true)) || Last2(g, SeeDevice(true), Sleep(1000))
  }

  // Nothing is left but to give the lock back.
  predicate ReleaseIsDue(g: Log) {
    || Last(g, Open(false)) || Last2(g, Init(false), Close) || Last2(g, Configure(false), Close)
    || Last3(g, Dial(None), Hangup, Close)
    || (exists r :: DialFailed(g, r) && !RetryIsDue(g))
    || BridgeStayed(g) || Last(g, SeeDevice(false))
  }

  // The ways in which an attempt ends without a result.
  lemma AttemptEnds(g: Log)
    requires Last(g, Open(false)) || Last2(g, Init(false), Close) || Last2(g, Configure(false), Close)
             || Last3(g, Dial(None), Hangup, Close)
    ensures ReleaseIsDue(g) && !BridgeStayed(g) && !Last(g, SeeDevice(false)) && forall r :: !DialFailed(g, r)
  {
  }

  lemma FailedIsNoWait(g: Log, r: DialResult)
    requires DialFailed(g, r)
    ensures !BridgeStayed(g) && !Last(g, SeeDevice(false))
    ensures !RetryIsDue(g) ==> ReleaseIsDue(g)
    ensures RetryIsDue(g) <==> (r == NoCarrier || r == Timeout) && DialsMade(g) < 3
  {
  }

  // What may follow while waiting for the bridge.
  lemma BridgeWaitOrder(g: Log)
    ensures RetryIsDue(g) || Last2(g, SeeBridge(true), Sleep(500)) || Last2(g, Terminate, Sleep(2000)) ==>
              forall yes :: MayFollow(g, SeeBridge(yes))
    ensures Last(g, SeeBridge(true)) && !BridgeStayed(g) ==> MayFollow(g, Sleep(500)) && MayFollow(g, Terminate)
    ensures Last(g, Terminate) ==> MayFollow(g, Sleep(2000))
    ensures RetryIsDue(g) ==> Last(g, Close)
  {
  }

  lemma LookIsNoStay(g: Log)
    ensures RetryIsDue(g) ==> !BridgeStayed(Then(g, SeeBridge(true)))
    ensures !BridgeStayed(Then(Then(g, Sleep(500)), SeeBridge(true)))
  {
  }

  predicate MayFollow(g: Log, e: Event) {
    match e
    case Acquire(_) => g.Empty?
    case Open(_) => AttemptIsDue(g)
    case Init(_) => Last(g, Open(true))
    case Configure(_) => Last(g, Init(true))
    case Dial(_) => Last(g, Init(true)) || Last(g, Configure(true))
    case Hangup => g.Then? && g.last.Dial? && g.last.outcome != Some(Connect)
    case Close => Last(g, Hangup) || Last(g, Init(false)) || Last(g, Configure(false))
    case SeeBridge(_) => RetryIsDue(g) || Last2(g, SeeBridge(true), Sleep(500)) || Last2(g, Terminate, Sleep(2000))
    case Terminate => Last(g, SeeBridge(true)) && !BridgeStayed(g)
    case SeeDevice(_) => Last(g, SeeBridge(false)) || Last2(g, SeeDevice(false), Sleep(500))
    case Sleep(ms) =>
      || (ms == 500 && ((Last(g, SeeBridge(true)) && !BridgeStayed(g)) || Last(g, SeeDevice(false))))
      || (ms == 2000 && Last(g, Terminate))
      || (ms == 1000 && Last(g, SeeDevice(true)))
    case Release => ReleaseIsDue(g)
    case Return(r) =>
      || (Last(g, Acquire(false)) && r == Failed)
      || (Last(g, Dial(Some(Connect))) && r == Answered(Connect, true))
      || (Last(g, Release) && if r.Answered? then DialFailed(g.before, r.result) && !r.modem
                              else forall q :: !DialFailed(g.before, q))
  }

  predicate InOrder(g: Log) {
    g.Then? ==> InOrder(g.before) && MayFollow(g.before, g.last)
  }

  // ------------------------------------------------------------------ every retry that is due is made

  // The retries that came due, the bridge seen gone, the device seen there; the attempts made; and
  // the releases because the bridge stayed, or the device stayed away.

  function RetriesDue(g: Log): nat {
    if g.Empty? then 0 else RetriesDue(g.before) + if RetryIsDue(g) then 1 else 0
  }

  function Count(g: Log, e: Event): nat {
    if g.Empty? then 0 else Count(g.before, e) + if g.last == e then 1 else 0
  }

  function Attempts(g: Log): nat {
    Count(g, Open(true)) + Count(g, Open(false))
  }

  function StuckCount(g: Log): nat {
    if g.Empty? then 0
    else StuckCount(g.before) + if g.last == Release && BridgeStayed(g.before) then 1 else 0
  }

  function GoneCount(g: Log): nat {
    if g.Empty? then 0
    else GoneCount(g.before) + if g.last == Release && Last(g.before, SeeDevice(false)) then 1 else 0
  }

  datatype Waiting = ForBridge | ForDevice | ForAttempt | ForNothing

  // What a run is in the middle of waiting for.
  function WaitingFor(g: Log): Waiting {
    if g.Empty? then ForNothing
    else if RetryIsDue(g) then ForBridge
    else
      match g.last
      case SeeBridge(running) => if running then ForBridge else ForDevice
      case Terminate => ForBridge
      case SeeDevice(present) => if present then ForAttempt else ForDevice
      case Acquire(ok) => if ok then ForAttempt else ForNothing
      case Sleep(ms) =>
        if ms == 1000 then ForAttempt
        else if ms == 2000 || Last(g.before, SeeBridge(true)) then ForBridge
        else ForDevice
      case _ => ForNothing
  }

  function One(b: bool): nat {
    if b then 1 else 0
  }

  ghost predicate Accounts(g: Log) {
    && RetriesDue(g) == Count(g, SeeBridge(false)) + StuckCount(g) + One(WaitingFor(g) == ForBridge)
    && Count(g, SeeBridge(false)) == Count(g, SeeDevice(true)) + GoneCount(g) + One(WaitingFor(g) == ForDevice)
    && Count(g, Acquire(true)) + Count(g, SeeDevice(true)) == Attempts(g) + One(WaitingFor(g) == ForAttempt)
  }

  lemma AccountsLook(g: Log, e: Event)
    requires Accounts(g) && MayFollow(g, e) && (e.SeeBridge? || e.SeeDevice? || e.Sleep? || e.Terminate?)
    ensures Accounts(Then(g, e))
  {
    hide RetriesDue, StuckCount, GoneCount, Count, DialsMade;
    CountsGrow(g, e);
  }

  lemma AccountsAttempt(g: Log, e: Event)
    requires Accounts(g) && MayFollow(g, e)
    requires e.Open? || e.Init? || e.Configure? || e.Dial? || e.Hangup? || e.Acquire?
    ensures Accounts(Then(g, e))
  {
    hide RetriesDue, StuckCount, GoneCount, Count, DialsMade;
    CountsGrow(g, e);
  }

  lemma AccountsClose(g: Log)
    requires Accounts(g) && MayFollow(g, Close)
    ensures Accounts(Then(g, Close))
  {
    hide RetriesDue, StuckCount, GoneCount, Count, DialsMade;
    CountsGrow(g, Close);
  }

  lemma AccountsEnd(g: Log, e: Event)
    requires Accounts(g) && MayFollow(g, e) && (e.Release? || e.Return?)
    ensures Accounts(Then(g, e))
  {
    hide RetriesDue, StuckCount, GoneCount, Count, DialsMade;
    CountsGrow(g, e);
  }

  lemma CountsGrow(g: Log, e: Event)
    ensures RetriesDue(Then(g, e)) == RetriesDue(g) + One(RetryIsDue(Then(g, e)))
    ensures StuckCount(Then(g, e)) == StuckCount(g) + One(e == Release && BridgeStayed(g))
    ensures GoneCount(Then(g, e)) == GoneCount(g) + One(e == Release && Last(g, SeeDevice(false)))
    ensures forall d :: Count(Then(g, e), d) == Count(g, d) + One(e == d)
  {
  }

  lemma {:induction false} InOrderAccounts(g: Log)
    requires InOrder(g)
    ensures Accounts(g)
  {
    if g.Then? {
      hide Accounts, MayFollow;
      InOrderAccounts(g.before);
      var e := g.last;
      if e.SeeBridge? || e.SeeDevice? || e.Sleep? || e.Terminate? {
        AccountsLook(g.before, e);
      } else if e.Close? {
        AccountsClose(g.before);
      } else if e.Release? || e.Return? {
        AccountsEnd(g.before, e);
      } else {
        AccountsAttempt(g.before, e);
      }
    }
  }

  // A run begins with Acquire, once; refused, it ends there.
  lemma {:induction false} StartsOnce(g: Log)
    requires InOrder(g) && g.Then?
    ensures Count(g, Acquire(true)) + Count(g, Acquire(false)) == 1
    ensures Count(g, Acquire(false)) == 1 ==> g == Then(Empty, Acquire(false)) || g == REFUSED
  {
    if g.before.Then? {
      StartsOnce(g.before);
    } else {
      assert Count(Empty, Acquire(true)) == 0 && Count(Empty, Acquire(false)) == 0;
    }
  }

  // In a run that got the lock and has returned, every retry that came due was made, but for one
  // if the bridge stayed after it was told to end, or the device stayed away.
  lemma EveryRetryIsMade(g: Log, r: Reply)
    requires InOrder(g) && Last(g, Return(r)) && g != REFUSED
    ensures Attempts(g) + StuckCount(g) + GoneCount(g) == 1 + RetriesDue(g)
  {
    hide InOrder, Count;
    InOrderAccounts(g);
    StartsOnce(g);
  }
}
