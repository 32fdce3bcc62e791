/**
 Talking to the modem (internal/modem/modem.go): reading until a result code shows up, classifying
 what a dial returned, and configuring.  The device is a script of reads with the clock readings
 around them; the script goes on until the clock has passed the deadline.
 */
module Modem {
  import opened DialProtocol

  datatype ReadError = NoError | ReadTimeout | Lost

  // One turn of the read loop: the clock at its head and when the remaining time is computed, and
  // what the device then returned.
  datatype Tick = Tick(now: int, later: int, data: string, error: ReadError)

  datatype Hearing = Matched | Gone | Late

  predicate OccursAt(s: string, t: string, i: nat) {
    i + |t| <= |s| && s[i..i + |t|] == t
  }

  // strings.Contains.
  predicate Contains(s: string, t: string) {
    exists i: nat | i <= |s| :: OccursAt(s, t, i)
  }

  function UpperChar(c: char): char {
    if 'a' <= c <= 'z' then (c as int - 32) as char else c
  }

  function Upper(s: string): (u: string)
    ensures |u| == |s| && forall i :: 0 <= i < |s| ==> u[i] == UpperChar(s[i])
  {
    seq(|s|, i requires 0 <= i < |s| => UpperChar(s[i]))
  }

  predicate Live(t: Tick, deadline: int) {
    t.now < deadline && t.later < deadline
  }

  // What the first k reads returned, together.
  function Received(script: seq<Tick>, k: nat): string
    requires k <= |script|
  {
    if k == 0 then "" else Received(script, k - 1) + script[k - 1].data
  }

  predicate Hit(text: string, codes: seq<string>) {
    exists j | 0 <= j < |codes| :: Contains(Upper(text), Upper(codes[j]))
  }

  // ------------------------------------------------------------------ the read loop

  // The reads made, the text they returned, and how it ended: at the first boundary where the
  // text so far contains a code, at the first broken read, or at the deadline.
  ghost predicate Hears(script: seq<Tick>, deadline: int, codes: seq<string>, resp: string, how: Hearing, used: nat) {
    && used <= |script| && resp == Received(script, used)
    && (forall j :: 0 <= j < used ==> Live(script[j], deadline))
    && (forall j :: 0 < j < used ==> !Hit(Received(script, j), codes))
    && (forall j :: 0 <= j < used - 1 ==> script[j].error != Lost)
    && match how
       case Matched => used > 0 && Hit(resp, codes)
       case Gone => used > 0 && !Hit(resp, codes) && script[used - 1].error == Lost
       case Late => !Hit(resp, codes) && used < |script| && !Live(script[used], deadline)
                    && (used > 0 ==> script[used - 1].error != Lost)
  }

  method ReadUntil(script: seq<Tick>, deadline: int, codes: seq<string>)
      returns (resp: string, how: Hearing, used: nat)
    requires exists k :: 0 <= k < |script| && !Live(script[k], deadline)
    requires forall j :: 0 <= j < |codes| ==> codes[j] != ""
    ensures Hears(script, deadline, codes, resp, how, used)
  {
    hide Contains, Upper;
    var accumulated := "";
    var upperCodes := seq(|codes|, j requires 0 <= j < |codes| => Upper(codes[j]));
    used := 0;
    NothingHitsEmpty(codes);
    while used < |script| && script[used].now < deadline
      invariant used <= |script| && accumulated == Received(script, used)
      invariant forall j :: 0 <= j < used ==> Live(script[j], deadline)
      invariant forall j :: 0 <= j <= used ==> !Hit(Received(script, j), codes)
      invariant forall j :: 0 <= j < used ==> script[j].error != Lost
    {
      var tick := script[used];
      if deadline - tick.later <= 0 {
        break;
      }
      used := used + 1;
      if |tick.data| > 0 {
        accumulated := accumulated + tick.data;
        var upperResp := Upper(accumulated);
        for j := 0 to |upperCodes|
          invariant forall i :: 0 <= i < j ==> !Contains(upperResp, Upper(codes[i]))
        {
          if Contains(upperResp, upperCodes[j]) {
            return accumulated, Matched, used;
          }
        }
      } else {
        assert accumulated == Received(script, used);
      }
      if tick.error == Lost {
        return accumulated, Gone, used;
      }
    }
    return accumulated, Late, used;
  }

  lemma NothingHitsEmpty(codes: seq<string>)
    requires forall j :: 0 <= j < |codes| ==> codes[j] != ""
    ensures !Hit("", codes)
  {
    forall j | 0 <= j < |codes| ensures !Contains(Upper(""), Upper(codes[j])) {
      assert |Upper(codes[j])| > 0;
    }
  }

  // ------------------------------------------------------------------ when it matches

  // The first n reads begin before the deadline, and none before the last is broken.
  ghost predicate Reach(script: seq<Tick>, deadline: int, n: nat) {
    && n <= |script|
    && (forall j :: 0 <= j < n ==> script[j].now < deadline && script[j].later < deadline)
    && (forall j :: 0 <= j < n - 1 ==> script[j].error != Lost)
  }

  // The read loop stops at the first boundary whose text contains a code; with any chunking, it
  // finds a code iff some boundary it can reach has one.
  lemma MatchedIffSomeBoundaryHits(
    script: seq<Tick>, deadline: int, codes: seq<string>, resp: string, how: Hearing, used: nat)
    requires Hears(script, deadline, codes, resp, how, used)
    requires forall j :: 0 <= j < |codes| ==> codes[j] != ""
    ensures how == Matched <==> exists n: nat :: Reach(script, deadline, n) && Hit(Received(script, n), codes)
    ensures forall n: nat | Reach(script, deadline, n) && Hit(Received(script, n), codes) :: used <= n
  {
    hide Hit;
    NothingHitsEmpty(codes);
    if how == Matched {
      assert Reach(script, deadline, used);
    }
  }

  // Its answer is determined.
  lemma HearsOnce(script: seq<Tick>, deadline: int, codes: seq<string>,
                                     r1: string, h1: Hearing, u1: nat, r2: string, h2: Hearing, u2: nat)
    requires Hears(script, deadline, codes, r1, h1, u1) && Hears(script, deadline, codes, r2, h2, u2)
    ensures r1 == r2 && h1 == h2 && u1 == u2
  {
    hide Hit, Received;
  }

  // ------------------------------------------------------------------ dial results

  function Code(r: DialResult): string {
    match r
    case Connect => "CONNECT"
    case Busy => "BUSY"
    case NoCarrier => "NO CARRIER"
    case NoDialtone => "NO DIALTONE"
    case Error => "ERROR"
    case Timeout => "TIMEOUT"
  }

  function DialCodes(): seq<string> {
    [Code(Connect), Code(Busy), Code(NoCarrier), Code(NoDialtone), Code(Error)]
  }

  function Classify(resp: string): DialResult {
    if Contains(resp, "CONNECT") then Connect
    else if Contains(resp, "BUSY") then Busy
    else if Contains(resp, "NO CARRIER") then NoCarrier
    else if Contains(resp, "NO DIALTONE") then NoDialtone
    else Error
  }

  predicate NoLower(s: string) {
    forall i | 0 <= i < |s| :: !('a' <= s[i] <= 'z')
  }

  lemma UpperStays(s: string)
    requires NoLower(s)
    ensures Upper(s) == s
  {
  }

  lemma CodesHaveNoLower(r: DialResult)
    ensures NoLower(Code(r)) && Upper(Code(r)) == Code(r) && Code(r) != ""
  {
    UpperStays(Code(r));
  }

  lemma ContainsInLonger(s: string, more: string, t: string)
    requires Contains(s, t) && s <= more
    ensures Contains(more, t)
  {
    var i: nat :| i <= |s| && OccursAt(s, t, i);
    assert more[i..i + |t|] == s[i..i + |t|];
    assert OccursAt(more, t, i);
  }

  lemma ContainsUpper(s: string, t: string)
    requires Contains(s, t) && NoLower(t)
    ensures Contains(Upper(s), t)
  {
    var i: nat :| i <= |s| && OccursAt(s, t, i);
    forall k | 0 <= k < |t| ensures Upper(s)[i..i + |t|][k] == t[k] {
      assert s[i..i + |t|][k] == s[i + k];
    }
    assert OccursAt(Upper(s), t, i);
  }

  // A dial result the modem can announce.
  predicate Announced(r: DialResult) {
    r != Timeout
  }

  lemma HitIsACode(text: string)
    ensures Hit(text, DialCodes()) <==> exists r :: Announced(r) && Contains(Upper(text), Code(r))
  {
    hide Contains, Upper, Code;
    CodesHaveNoLower(Connect);
    CodesHaveNoLower(Busy);
    CodesHaveNoLower(NoCarrier);
    CodesHaveNoLower(NoDialtone);
    CodesHaveNoLower(Error);
    var codes := DialCodes();
    if r :| Announced(r) && Contains(Upper(text), Code(r)) {
      var j := match r case Connect => 0 case Busy => 1 case NoCarrier => 2 case NoDialtone => 3 case _ => 4;
      assert Contains(Upper(text), Upper(codes[j]));
    }
  }

  // Earlier in the order in which a dial looks for codes.
  function Rank(r: DialResult): nat {
    match r
    case Connect => 0
    case Busy => 1
    case NoCarrier => 2
    case NoDialtone => 3
    case _ => 4
  }

  ghost predicate Leads(text: string, r: DialResult) {
    && Announced(r) && Contains(text, Code(r))
    && forall q :: Announced(q) && Rank(q) < Rank(r) ==> !Contains(text, Code(q))
  }

  lemma SomeCodeLeads(text: string, r: DialResult)
    requires Announced(r) && Contains(text, Code(r))
    ensures Leads(text, Classify(text))
  {
    hide Contains;
  }

  lemma {:induction false} ReceivedGrows(script: seq<Tick>, k: nat, n: nat)
    requires k <= n <= |script|
    ensures Received(script, k) <= Received(script, n)
  {
    if k < n {
      ReceivedGrows(script, k, n - 1);
    }
  }

  // A stream without lower-case letters that holds a code before the deadline: however it is cut
  // into chunks, the dial returns, of the codes in what it has read, the one of lowest rank.
  lemma DialReturnsTheLeadingCode(
    script: seq<Tick>, deadline: int, resp: string, how: Hearing, used: nat, n: nat, r: DialResult)
    requires Hears(script, deadline, DialCodes(), resp, how, used)
    requires Reach(script, deadline, n) && NoLower(Received(script, n)) && Announced(r)
    requires Contains(Received(script, n), Code(r))
    ensures how == Matched && used <= n && resp == Received(script, used) && resp <= Received(script, n)
    ensures Leads(resp, Classify(resp))
  {
    hide Contains, Upper, Code, Hit, Reach, DialCodes, Classify, Hears, NoLower, Leads;
    ReachGives(script, deadline, n);
    var text := Received(script, n);
    UpperStays(text);
    HitIsACode(text);
    CodesAreNonempty();
    MatchedIffSomeBoundaryHits(script, deadline, DialCodes(), resp, how, used);
    HearsGives(script, deadline, DialCodes(), resp, how, used);
    ReceivedGrows(script, used, n);
    NoLowerPrefix(resp, text);
    UpperStays(resp);
    HitIsACode(resp);
    var q :| Announced(q) && Contains(resp, Code(q));
    SomeCodeLeads(resp, q);
  }

  // With exactly one kind of code in the stream, it returns that code.
  lemma DialReturnsTheCode(
    script: seq<Tick>, deadline: int, resp: string, how: Hearing, used: nat, n: nat, r: DialResult)
    requires Hears(script, deadline, DialCodes(), resp, how, used)
    requires Reach(script, deadline, n) && NoLower(Received(script, n)) && Announced(r)
    requires Contains(Received(script, n), Code(r))
    requires forall q :: Announced(q) && q != r ==> !Contains(Received(script, n), Code(q))
    ensures how == Matched && Classify(resp) == r
  {
    hide Contains, Code, Reach, Hears, Classify, NoLower;
    ReachGives(script, deadline, n);
    DialReturnsTheLeadingCode(script, deadline, resp, how, used, n, r);
    ContainsInLonger(resp, Received(script, n), Code(Classify(resp)));
  }

  lemma CodesAreNonempty()
    ensures forall j :: 0 <= j < |DialCodes()| ==> DialCodes()[j] != ""
  {
  }

  lemma HearsGives(
    script: seq<Tick>, deadline: int, codes: seq<string>, resp: string, how: Hearing, used: nat)
    requires Hears(script, deadline, codes, resp, how, used)
    ensures used <= |script| && resp == Received(script, used) && (how == Matched ==> Hit(resp, codes))
  {
    hide Hit, Received;
  }

  lemma ReachGives(script: seq<Tick>, deadline: int, n: nat)
    requires Reach(script, deadline, n)
    ensures n <= |script|
  {
  }

  lemma NoLowerPrefix(s: string, t: string)
    requires s <= t && NoLower(t)
    ensures NoLower(s)
  {
    forall i | 0 <= i < |s| ensures !('a' <= s[i] <= 'z') {
      assert t[i] == s[i];
    }
  }

  // The loop looks for codes in any case, the classification only in capitals.  They agree iff
  // the first code of the text is ERROR or is there in capitals; otherwise a code of lower
  // priority, or ERROR, is reported.
  lemma ClassifiedAsHeardIffCapitals(text: string)
    ensures Classify(text) == Classify(Upper(text))
       <==> Classify(Upper(text)) == Error || Contains(text, Code(Classify(Upper(text))))
  {
    hide Contains, Upper;
    UpperContains(text, Connect);
    UpperContains(text, Busy);
    UpperContains(text, NoCarrier);
    UpperContains(text, NoDialtone);
  }

  lemma UpperContains(text: string, r: DialResult)
    ensures Contains(text, Code(r)) ==> Contains(Upper(text), Code(r))
  {
    if Contains(text, Code(r)) {
      CodesHaveNoLower(r);
      ContainsUpper(text, Code(r));
    }
  }

  lemma OneRead(now: int, text: string, codes: seq<string>)
    requires Hit(text, codes)
    ensures Hears([Tick(now, now, text, NoError)], now + 1, codes, text, Matched, 1)
  {
    hide Hit;
    var script := [Tick(now, now, text, NoError)];
    assert Received(script, 0) == "";
    assert Received(script, 1) == "" + text == text;
  }

  lemma ConnectInAnyCase()
    ensures Contains(Upper("connect"), Code(Connect))
  {
    assert Upper("connect") == "CONNECT";
    assert OccursAt("CONNECT", "CONNECT", 0);
  }

  // So a modem that connects in lower case is taken for one that reported an error.
  lemma LowerCaseConnectIsError(now: int)
    ensures Hears([Tick(now, now, "connect", NoError)], now + 1, DialCodes(), "connect", Matched, 1)
    ensures Classify("connect") == Error
  {
    hide Hit, Contains, Upper, Code, DialCodes, Hears, Classify;
    ConnectInAnyCase();
    assert Announced(Connect);
    HitIsACode("connect");
    OneRead(now, "connect", DialCodes());
    AllLower("connect");
  }

  lemma AllLower(s: string)
    requires forall i :: 0 <= i < |s| ==> 'a' <= s[i] <= 'z'
    ensures Classify(s) == Error
  {
    hide Classify;
    Absent(s, "CONNECT");
    Absent(s, "BUSY");
    Absent(s, "NO CARRIER");
    Absent(s, "NO DIALTONE");
    assert Classify(s) == Error by { ClassifyNothing(s); }
  }

  lemma ClassifyNothing(s: string)
    requires !Contains(s, "CONNECT") && !Contains(s, "BUSY")
    requires !Contains(s, "NO CARRIER") && !Contains(s, "NO DIALTONE")
    ensures Classify(s) == Error
  {
    hide Contains;
  }

  lemma Absent(s: string, t: string)
    requires forall i :: 0 <= i < |s| ==> 'a' <= s[i] <= 'z'
    requires t != "" && !('a' <= t[0] <= 'z')
    ensures !Contains(s, t)
  {
    forall i: nat ensures !OccursAt(s, t, i) {
      if i + |t| <= |s| {
        assert s[i..i + |t|][0] == s[i];
      }
    }
  }
}
