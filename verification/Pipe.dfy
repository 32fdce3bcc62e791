/**
 BufferedReadWriteCloser (internal/modem/modem.go:188-268): a goroutine that reads the device and
 queues what it got, and a Read that takes from the queue.  The two run side by side, and each
 select may take any branch that is ready.
 */
module Pipe {
  import opened Seqs

  const QUEUE: nat := 100
  const BUFFER: nat := 4096

  datatype Loop =
    | Checking                               // at the select on close
    | ReadingInner
    | Pushing(chunk: string, failed: bool)
    | Reporting
    | Stopped

  // One successful Read: the chunk it took and the length of the caller's buffer.
  datatype Taken = Taken(chunk: string, room: nat)

  // The rest records the past: bytes read from the device, what Read took from the queue, and a
  // chunk given up because of the close; reads of the device that failed, errors that Read
  // returned, and errors given up because of the close.
  datatype State = State(
    loop: Loop, queue: seq<string>, error: bool, closed: bool,
    consumed: string, takes: seq<Taken>, dropped: string,
    failures: nat, told: nat, hushed: nat)

  datatype Step =
    | Check
    | InnerRead(chunk: string, failed: bool)
    | Push
    | GiveUp                                 // the close wins over the send
    | Report
    | ReadData(room: nat)
    | ReadError
    | ReadClosed
    | Close

  function One(b: bool): nat {
    if b then 1 else 0
  }

  function Apply(s: State, step: Step): State {
    match step
    case Check => if !s.loop.Checking? then s else s.(loop := if s.closed then Stopped else ReadingInner)
    case InnerRead(chunk, failed) =>
      if !s.loop.ReadingInner? || |chunk| > BUFFER then s
      else s.(consumed := s.consumed + chunk,
              failures := s.failures + One(failed),
              loop := if chunk != "" then Pushing(chunk, failed) else if failed then Reporting else Checking)
    case Push =>
      if !s.loop.Pushing? || |s.queue| >= QUEUE then s
      else s.(queue := s.queue + [s.loop.chunk], loop := if s.loop.failed then Reporting else Checking)
    case GiveUp =>
      if !s.closed then s
      else if s.loop.Pushing? then
        s.(dropped := s.loop.chunk, hushed := s.hushed + One(s.loop.failed), loop := Stopped)
      else if s.loop.Reporting? then s.(hushed := s.hushed + 1, loop := Stopped)
      else s
    case Report => if !s.loop.Reporting? || s.error then s else s.(error := true, loop := Stopped)
    case ReadData(room) =>
      if s.queue == [] then s
      else s.(queue := s.queue[1..], takes := s.takes + [Taken(s.queue[0], room)])
    case ReadError => if !s.error then s else s.(error := false, told := s.told + 1)
    case ReadClosed => s
    case Close => s.(closed := true)
  }

  function Run(steps: seq<Step>): State {
    if steps == [] then State(Checking, [], false, false, "", [], "", 0, 0, 0)
    else Apply(Run(steps[..|steps| - 1]), steps[|steps| - 1])
  }

  function Whole(chunk: string): string {
    chunk
  }

  function TakenChunk(t: Taken): string {
    t.chunk
  }

  // What the caller gets: copy stops at the end of its buffer and the rest is gone.
  function Got(t: Taken): string {
    if t.room < |t.chunk| then t.chunk[..t.room] else t.chunk
  }

  function Delivered(s: State): string {
    FlatMap(Got, s.takes)
  }

  function InHand(s: State): string {
    if s.loop.Pushing? then s.loop.chunk else ""
  }

  // An error the loop has not passed on yet.
  predicate Pending(s: State) {
    s.loop.Reporting? || (s.loop.Pushing? && s.loop.failed)
  }

  // Every failed read is pending, waiting for a Read, returned by one, or given up by the close.
  ghost predicate ErrorsKept(s: State) {
    && s.failures == One(Pending(s)) + One(s.error) + s.told + s.hushed <= 1
    && (s.failures == 0 ==> !s.loop.Stopped? || s.closed)
    && (s.failures == 1 && !Pending(s) ==> s.loop.Stopped?)
    && (s.hushed > 0 ==> s.closed)
  }

  ghost predicate Inv(s: State) {
    && s.consumed == FlatMap(TakenChunk, s.takes) + FlatMap(Whole, s.queue) + InHand(s) + s.dropped
    && |s.queue| <= QUEUE
    && (s.dropped != "" ==> s.closed && s.loop.Stopped?)
    && (s.error ==> s.loop.Stopped?)
    && (s.loop.Pushing? ==> 0 < |s.loop.chunk| <= BUFFER)
    && (forall k :: 0 <= k < |s.queue| ==> 0 < |s.queue[k]| <= BUFFER)
    && (forall k :: 0 <= k < |s.takes| ==> 0 < |s.takes[k].chunk| <= BUFFER)
    && ErrorsKept(s)
  }

  lemma FlatMapFirst<A, B>(f: A -> seq<B>, xs: seq<A>)
    requires xs != []
    ensures FlatMap(f, xs) == f(xs[0]) + FlatMap(f, xs[1..])
  {
    FlatMapConcat(f, xs[..1], xs[1..]);
    FlatMapSmall(f, xs[..1]);
    assert xs[..1] + xs[1..] == xs;
  }

  lemma FlatMapLast<A, B>(f: A -> seq<B>, xs: seq<A>, x: A)
    ensures FlatMap(f, xs + [x]) == FlatMap(f, xs) + f(x)
  {
    assert (xs + [x])[..|xs|] == xs;
  }

  lemma StepKeeps(s: State, step: Step)
    requires Inv(s)
    ensures Inv(Apply(s, step))
  {
    match step {
      case Push => PushKeeps(s);
      case ReadData(room) => ReadKeeps(s, room);
      case _ => OtherKeeps(s, step);
    }
  }

  lemma PushKeeps(s: State)
    requires Inv(s)
    ensures Inv(Apply(s, Push))
  {
    hide FlatMap;
    if s.loop.Pushing? {
      FlatMapLast(Whole, s.queue, s.loop.chunk);
      Regroup(FlatMap(TakenChunk, s.takes), FlatMap(Whole, s.queue), s.loop.chunk);
    }
  }

  lemma ReadKeeps(s: State, room: nat)
    requires Inv(s)
    ensures Inv(Apply(s, ReadData(room)))
  {
    hide FlatMap;
    if s.queue != [] {
      FlatMapFirst(Whole, s.queue);
      FlatMapLast(TakenChunk, s.takes, Taken(s.queue[0], room));
      Regroup(FlatMap(TakenChunk, s.takes), s.queue[0], FlatMap(Whole, s.queue[1..]));
    }
  }

  lemma Regroup(a: string, b: string, c: string)
    ensures a + (b + c) == a + b + c
  {
  }

  lemma OtherKeeps(s: State, step: Step)
    requires Inv(s) && !step.Push? && !step.ReadData?
    ensures Inv(Apply(s, step))
  {
    hide FlatMap;
  }

  // Every byte read from the device is, in order, taken by a Read, queued, in hand, or dropped
  // by the close; the queue never holds more than its capacity.
  lemma {:induction false} RunKeeps(steps: seq<Step>)
    ensures Inv(Run(steps))
  {
    if steps != [] {
      RunKeeps(steps[..|steps| - 1]);
      StepKeeps(Run(steps[..|steps| - 1]), steps[|steps| - 1]);
    }
  }

  predicate Roomy(t: Taken) {
    t.room >= |t.chunk|
  }

  lemma {:induction false} GotLength(takes: seq<Taken>)
    ensures |FlatMap(Got, takes)| <= |FlatMap(TakenChunk, takes)|
    ensures (forall k :: 0 <= k < |takes| ==> Roomy(takes[k])) ==> FlatMap(Got, takes) == FlatMap(TakenChunk, takes)
    ensures |FlatMap(Got, takes)| == |FlatMap(TakenChunk, takes)| ==> forall k :: 0 <= k < |takes| ==> Roomy(takes[k])
  {
    if takes != [] {
      GotLength(takes[..|takes| - 1]);
    }
  }

  // With buffers of at least 4096 bytes nothing is lost: what was delivered is a prefix of what
  // the device sent, whichever branches the selects took.
  lemma DeliveredIsPrefix(steps: seq<Step>)
    requires forall k :: 0 <= k < |steps| && steps[k].ReadData? ==> steps[k].room >= 4096
    ensures var s := Run(steps);
            && s.consumed == Delivered(s) + FlatMap(Whole, s.queue) + InHand(s) + s.dropped
            && Delivered(s) <= s.consumed && |s.queue| <= 100
            && (s.dropped != "" ==> s.closed)
  {
    hide Run;
    RunKeeps(steps);
    RoomsOf(steps);
    GotLength(Run(steps).takes);
  }

  lemma {:induction false} RoomsOf(steps: seq<Step>)
    requires forall k :: 0 <= k < |steps| && steps[k].ReadData? ==> steps[k].room >= BUFFER
    ensures forall k :: 0 <= k < |Run(steps).takes| ==> Run(steps).takes[k].room >= BUFFER
  {
    if steps != [] {
      RoomsOf(steps[..|steps| - 1]);
    }
  }

  // In general nothing that was taken is lost iff every Read had room for the chunk it took.
  lemma LossIffShortBuffer(steps: seq<Step>)
    ensures var s := Run(steps);
            Delivered(s) == FlatMap(TakenChunk, s.takes)
            <==> forall k :: 0 <= k < |s.takes| ==> Roomy(s.takes[k])
  {
    GotLength(Run(steps).takes);
  }

  // Once the loop has stopped and the queue is empty without a close, all of the device's bytes
  // have been taken.
  lemma DrainedIsEverything(steps: seq<Step>)
    requires var s := Run(steps); s.loop.Stopped? && s.queue == [] && !s.closed
    ensures Run(steps).consumed == FlatMap(TakenChunk, Run(steps).takes)
  {
    hide Run;
    RunKeeps(steps);
  }

  // The loop reads no more after a failed read, and reports it once: unless the stream is closed,
  // a loop that has stopped met one failure, and that is in the channel or was returned by one
  // Read.
  lemma FailureIsToldOnce(steps: seq<Step>)
    ensures var s := Run(steps);
            && s.failures <= 1 && s.told <= s.failures
            && (s.loop.Stopped? && !s.closed ==> s.failures == 1 && (s.told == 1 <==> !s.error))
            && (s.told == 1 ==> s.loop.Stopped? && !s.error)
  {
    hide Run;
    RunKeeps(steps);
  }

  // A failure met while the stream is open reaches the next Read that looks for it: the loop
  // pushes what came with it and reports it, once the queue has room.
  lemma FailureReachesARead(steps: seq<Step>)
    requires var s := Run(steps); Pending(s) && !s.closed && |s.queue| < 100
    ensures var push: seq<Step> := if Run(steps).loop.Pushing? then [Push] else [];
            Run(steps + push + [Report, ReadError]).told == 1
  {
    RunKeeps(steps);
    var push: seq<Step> := if Run(steps).loop.Pushing? then [Push] else [];
    var more := steps + push;
    if push != [] {
      RunMore(steps, Push);
    } else {
      assert more == steps;
    }
    RunMore(more, Report);
    RunMore(more + [Report], ReadError);
    assert more + [Report] + [ReadError] == steps + push + [Report, ReadError];
    hide Run;
  }

  lemma RunMore(steps: seq<Step>, step: Step)
    ensures Run(steps + [step]) == Apply(Run(steps), step)
  {
    assert (steps + [step])[..|steps|] == steps;
  }
}
