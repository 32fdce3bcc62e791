/**
 Site definitions and the file they are read from (internal/config/sites.go): one site a line,
 fields separated by '|', comments and blank lines skipped.
 */
module Sites {
  import opened Wrappers
  import opened Text

  datatype Site = Site(name: string, phone: string, description: string, baudRate: int,
                       modemInit: seq<string>)

  datatype Why = TooFewFields(got: nat) | BadBaud(field: string)

  datatype Result = Parsed(sites: seq<Site>) | BadLine(number: nat, why: Why) | ReadFailed

  // ------------------------------------------------------------------ the library functions used

  function TrimLeft(s: string): (r: string)
    ensures r == "" || !IsSpace(r[0])
    ensures forall c :: c in r ==> c in s
  {
    if s != "" && IsSpace(s[0]) then TrimLeft(s[1..]) else s
  }

  function TrimRight(s: string): (r: string)
    ensures r <= s && (r == "" || !IsSpace(r[|r| - 1]))
  {
    if s != "" && IsSpace(s[|s| - 1]) then TrimRight(s[..|s| - 1]) else s
  }

  predicate Trimmed(s: string) {
    s == "" || (!IsSpace(s[0]) && !IsSpace(s[|s| - 1]))
  }

  // strings.TrimSpace.
  function TrimSpace(s: string): (r: string)
    ensures Trimmed(r)
    ensures forall c :: c in r ==> c in s
    ensures Trimmed(s) ==> r == s
  {
    TrimRight(TrimLeft(s))
  }

  // The place of the first c, or the length.
  function Find(s: string, c: char): (i: nat)
    ensures i <= |s| && (i < |s| ==> s[i] == c)
    ensures forall k :: 0 <= k < i ==> s[k] != c
  {
    if s == "" || s[0] == c then 0 else 1 + Find(s[1..], c)
  }

  // strings.SplitN.
  function SplitN(s: string, c: char, n: nat): (r: seq<string>)
    requires n >= 1
    ensures 1 <= |r| <= n
  {
    var i := Find(s, c);
    if n == 1 || i == |s| then [s] else [s[..i]] + SplitN(s[i + 1..], c, n - 1)
  }

  const MAX_INT: int := 0x7fff_ffff_ffff_ffff

  predicate IsDigit(c: char) {
    '0' <= c <= '9'
  }

  function Digit(c: char): nat
    requires IsDigit(c)
  {
    c as int - '0' as int
  }

  function Number(s: string): Option<nat> {
    if s == "" then None
    else if !IsDigit(s[|s| - 1]) then None
    else if |s| == 1 then Some(Digit(s[0]))
    else
      var high := Number(s[..|s| - 1]);
      if high.None? then None else Some(10 * high.value + Digit(s[|s| - 1]))
  }

  // strconv.Atoi on 64 bits.
  function Atoi(s: string): (r: Option<int>)
    ensures r.Some? ==> -MAX_INT - 1 <= r.value <= MAX_INT
  {
    if s == "" then None
    else
      var n := Number(if s[0] == '-' || s[0] == '+' then s[1..] else s);
      if n.None? then None
      else
        var v: int := if s[0] == '-' then 0 - n.value else n.value;
        if -MAX_INT - 1 <= v <= MAX_INT then Some(v) else None
  }

  // ------------------------------------------------------------------ parsing

  // The commands in the pieces of the fifth field.
  function Commands(pieces: seq<string>): seq<string> {
    if pieces == [] then []
    else
      var cmd := TrimSpace(pieces[|pieces| - 1]);
      Commands(pieces[..|pieces| - 1]) + if cmd == "" then [] else [cmd]
  }

  datatype LineResult = Skip | One(site: Site) | Wrong(why: Why)

  function ParseFields(parts: seq<string>): LineResult {
    if |parts| < 4 then Wrong(TooFewFields(|parts|))
    else
      var baud := Atoi(TrimSpace(parts[3]));
      if baud.None? then Wrong(BadBaud(parts[3]))
      else
        One(Site(TrimSpace(parts[0]), TrimSpace(parts[1]), TrimSpace(parts[2]), baud.value,
                 if |parts| == 5 && TrimSpace(parts[4]) != "" then Commands(Split(parts[4], ';')) else []))
  }

  function ParseLine(text: string): LineResult {
    var line := TrimSpace(text);
    if line == "" || line[0] == '#' then Skip else ParseFields(SplitN(line, '|', 5))
  }

  function Parse(lines: seq<string>): Result {
    if lines == [] then Parsed([])
    else
      var before := Parse(lines[..|lines| - 1]);
      if !before.Parsed? then before
      else
        match ParseLine(lines[|lines| - 1])
        case Skip => before
        case One(site) => Parsed(before.sites + [site])
        case Wrong(why) => BadLine(|lines|, why)
  }

  // bufio.ScanLines: pieces between line ends, without a carriage return at their end; an empty
  // last piece is no line.
  function ScanLines(text: string): seq<string> {
    var pieces := Split(text, '\n');
    DropCrs(if pieces[|pieces| - 1] == "" then pieces[..|pieces| - 1] else pieces)
  }

  function DropCr(s: string): string {
    if s != "" && s[|s| - 1] == '\r' then s[..|s| - 1] else s
  }

  function DropCrs(ls: seq<string>): seq<string> {
    seq(|ls|, k requires 0 <= k < |ls| => DropCr(ls[k]))
  }

  function ParseText(text: string): Result {
    Parse(ScanLines(text))
  }

  // ------------------------------------------------------------------ the code

  lemma {:induction false} BadStays(lines: seq<string>, n: nat)
    requires n <= |lines| && !Parse(lines[..n]).Parsed?
    ensures Parse(lines) == Parse(lines[..n])
  {
    if n == |lines| {
      assert lines[..n] == lines;
    } else {
      assert lines[..|lines| - 1][..n] == lines[..n];
      BadStays(lines[..|lines| - 1], n);
    }
  }

  method ParseModemInit(field: string) returns (modemInit: seq<string>)
    ensures modemInit == Commands(Split(field, ';'))
  {
    modemInit := [];
    var pieces := Split(field, ';');
    for i := 0 to |pieces|
      invariant modemInit == Commands(pieces[..i])
    {
      var cmd := TrimSpace(pieces[i]);
      assert pieces[..i + 1][..i] == pieces[..i];
      if cmd != "" {
        modemInit := modemInit + [cmd];
      }
    }
    assert pieces[..|pieces|] == pieces;
  }

  // The lines may end in a read error, or in one too long for the scanner.
  method ParseSites(lines: seq<string>, readError: bool) returns (r: Result)
    ensures r == if Parse(lines).Parsed? && readError then ReadFailed else Parse(lines)
  {
    hide SplitN, Split, TrimSpace, Atoi, Commands;
    var sites := [];
    var lineNum := 0;
    while lineNum < |lines|
      invariant 0 <= lineNum <= |lines| && Parse(lines[..lineNum]) == Parsed(sites)
    {
      var text := lines[lineNum];
      assert lines[..lineNum + 1][..lineNum] == lines[..lineNum];
      lineNum := lineNum + 1;
      var line := TrimSpace(text);
      if line == "" || line[0] == '#' {
        continue;
      }
      var parts := SplitN(line, '|', 5);
      if |parts| < 4 {
        BadStays(lines, lineNum);
        return BadLine(lineNum, TooFewFields(|parts|));
      }
      var baud := Atoi(TrimSpace(parts[3]));
      if baud.None? {
        BadStays(lines, lineNum);
        return BadLine(lineNum, BadBaud(parts[3]));
      }
      var site := Site(TrimSpace(parts[0]), TrimSpace(parts[1]), TrimSpace(parts[2]), baud.value, []);
      if |parts| == 5 && TrimSpace(parts[4]) != "" {
        var modemInit := ParseModemInit(parts[4]);
        site := site.(modemInit := modemInit);
      }
      sites := sites + [site];
    }
    assert lines[..|lines|] == lines;
    return if readError then ReadFailed else Parsed(sites);
  }
}
