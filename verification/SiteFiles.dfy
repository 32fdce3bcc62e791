/** A printer for site files, and that parsing and printing undo each other. */
module SiteFiles {
  import opened Wrappers
  import opened Text
  import opened Sites

  function DigitChar(d: nat): char
    requires d < 10
  {
    ('0' as int + d) as char
  }

  function Decimal(n: nat): string {
    if n < 10 then [DigitChar(n)] else Decimal(n / 10) + [DigitChar(n % 10)]
  }

  function Itoa(n: int): string {
    if n < 0 then "-" + Decimal(0 - n) else Decimal(n)
  }

  function Head(s: Site): string {
    s.name + "|" + s.phone + "|" + s.description + "|" + Itoa(s.baudRate)
  }

  function PrintSite(s: Site): string {
    if s.modemInit == [] then Head(s) else Head(s) + "|" + Join(s.modemInit, ';')
  }

  function PrintLines(sites: seq<Site>): seq<string> {
    seq(|sites|, k requires 0 <= k < |sites| => PrintSite(sites[k]))
  }

  function PrintText(sites: seq<Site>): string {
    Terminated(PrintLines(sites), '\n')
  }

  // ------------------------------------------------------------------ the sites a file can hold

  ghost predicate Field(s: string) {
    Trimmed(s) && Free(s, '\n') && Free(s, '|')
  }

  ghost predicate Command(s: string) {
    s != "" && Trimmed(s) && Free(s, '\n') && Free(s, ';')
  }

  ghost predicate AllCommands(cmds: seq<string>) {
    forall k :: 0 <= k < |cmds| ==> Command(cmds[k])
  }

  ghost predicate Plain(s: Site) {
    && Field(s.name) && Field(s.phone) && Field(s.description)
    && (s.name != "" ==> s.name[0] != '#')
    && -MAX_INT - 1 <= s.baudRate <= MAX_INT
    && AllCommands(s.modemInit)
  }

  ghost predicate AllPlain(sites: seq<Site>) {
    forall k :: 0 <= k < |sites| ==> Plain(sites[k])
  }

  // ------------------------------------------------------------------ numbers

  ghost predicate Digits(s: string) {
    s != "" && forall i :: 0 <= i < |s| ==> IsDigit(s[i])
  }

  lemma {:induction false} DecimalReads(n: nat)
    ensures Digits(Decimal(n)) && Number(Decimal(n)) == Some(n)
  {
    if n >= 10 {
      DecimalReads(n / 10);
      var d := Decimal(n);
      assert d[..|d| - 1] == Decimal(n / 10);
    }
  }

  lemma ItoaReads(n: int)
    requires -MAX_INT - 1 <= n <= MAX_INT
    ensures Atoi(Itoa(n)) == Some(n)
    ensures Itoa(n) != "" && Trimmed(Itoa(n)) && Free(Itoa(n), '|') && Free(Itoa(n), '\n')
  {
    hide Decimal, Number;
    if n < 0 {
      DecimalReads(0 - n);
      assert ("-" + Decimal(0 - n))[1..] == Decimal(0 - n);
    } else {
      DecimalReads(n);
    }
  }

  // ------------------------------------------------------------------ printed lines parse

  lemma FindAt(a: string, rest: string, c: char)
    requires Free(a, c)
    ensures Find(a + [c] + rest, c) == |a| && Find(a, c) == |a|
  {
    var s := a + [c] + rest;
    assert s[|a|] == c;
    assert forall k :: 0 <= k < |a| ==> s[k] == a[k];
  }

  lemma SplitNCons(a: string, rest: string, c: char, n: nat)
    requires Free(a, c) && n >= 2
    ensures SplitN(a + [c] + rest, c, n) == [a] + SplitN(rest, c, n - 1)
  {
    var s := a + [c] + rest;
    FindAt(a, rest, c);
    assert s[..|a|] == a && s[|a| + 1..] == rest;
  }

  lemma SplitNFree(a: string, c: char, n: nat)
    requires n >= 1 && (n == 1 || Free(a, c))
    ensures SplitN(a, c, n) == [a]
  {
    if n > 1 {
      FindAt(a, "", c);
    }
  }

  lemma SplitHead(s: Site, tail: string)
    requires Plain(s)
    ensures SplitN(s.name + "|" + s.phone + "|" + s.description + "|" + tail, '|', 5)
         == [s.name, s.phone, s.description] + SplitN(tail, '|', 2)
  {
    hide SplitN;
    var t3 := s.description + ['|'] + tail;
    var t2 := s.phone + ['|'] + t3;
    SplitNCons(s.description, tail, '|', 3);
    SplitNCons(s.phone, t3, '|', 4);
    SplitNCons(s.name, t2, '|', 5);
    assert s.name + "|" + s.phone + "|" + s.description + "|" + tail == s.name + ['|'] + t2;
  }

  lemma SplitPrinted(s: Site)
    requires Plain(s)
    ensures SplitN(PrintSite(s), '|', 5) == [s.name, s.phone, s.description, Itoa(s.baudRate)]
         + if s.modemInit == [] then [] else [Join(s.modemInit, ';')]
  {
    hide SplitN, Itoa, Join;
    var baud, cmds := Itoa(s.baudRate), Join(s.modemInit, ';');
    ItoaReads(s.baudRate);
    if s.modemInit == [] {
      SplitHead(s, baud);
      SplitNFree(baud, '|', 2);
    } else {
      SplitHead(s, baud + ['|'] + cmds);
      SplitNCons(baud, cmds, '|', 2);
      SplitNFree(cmds, '|', 1);
      assert PrintSite(s) == s.name + "|" + s.phone + "|" + s.description + "|" + (baud + ['|'] + cmds);
    }
  }

  lemma {:induction false} JoinOfCommands(cmds: seq<string>)
    requires cmds != [] && AllCommands(cmds)
    ensures var j := Join(cmds, ';'); j != "" && Trimmed(j) && Free(j, '\n')
  {
    if |cmds| > 1 {
      JoinOfCommands(cmds[1..]);
      assert Command(cmds[0]);
    }
  }

  lemma {:induction false} CommandsStay(cmds: seq<string>)
    requires AllCommands(cmds)
    ensures Commands(cmds) == cmds
  {
    if cmds != [] {
      hide TrimSpace;
      CommandsStay(cmds[..|cmds| - 1]);
      assert Command(cmds[|cmds| - 1]);
    }
  }

  lemma CommandsRead(cmds: seq<string>)
    requires cmds != [] && AllCommands(cmds)
    ensures Commands(Split(Join(cmds, ';'), ';')) == cmds
  {
    SplitJoin(cmds, ';');
    CommandsStay(cmds);
  }

  // A printed line begins and ends with something other than white space.
  lemma PrintedIsTrimmed(s: Site)
    requires Plain(s)
    ensures var line := PrintSite(s); line != "" && Trimmed(line) && line[0] != '#' && Free(line, '\n')
  {
    hide Itoa, Join;
    ItoaReads(s.baudRate);
    var line, n := PrintSite(s), |s.name|;
    assert line[0] == if s.name == "" then '|' else s.name[0];
    if s.modemInit != [] {
      JoinOfCommands(s.modemInit);
    }
  }

  lemma PrintedLineParses(s: Site)
    requires Plain(s)
    ensures ParseLine(PrintSite(s)) == One(s)
  {
    hide SplitN, Itoa, Join, TrimSpace, PrintSite, Commands, Split, Atoi;
    PrintedIsTrimmed(s);
    SplitPrinted(s);
    ItoaReads(s.baudRate);
    if s.modemInit != [] {
      JoinOfCommands(s.modemInit);
      CommandsRead(s.modemInit);
    }
  }

  lemma PrintedLast(sites: seq<Site>)
    requires sites != []
    ensures var n, lines := |sites| - 1, PrintLines(sites);
            |lines| == n + 1 && lines[..n] == PrintLines(sites[..n]) && lines[n] == PrintSite(sites[n])
  {
    hide PrintSite;
  }

  lemma {:induction false} PrintedLinesParse(sites: seq<Site>)
    requires AllPlain(sites)
    ensures Parse(PrintLines(sites)) == Parsed(sites)
  {
    if sites == [] {
      assert PrintLines(sites) == [];
    } else {
      hide ParseLine, PrintSite, PrintLines, Parse, Plain;
      PrintedLinesParse(sites[..|sites| - 1]);
      PrintedLineParses(sites[|sites| - 1]);
      PrintedLinesStep(sites);
    }
  }

  lemma PrintedLinesStep(sites: seq<Site>)
    requires sites != []
    requires Parse(PrintLines(sites[..|sites| - 1])) == Parsed(sites[..|sites| - 1])
    requires ParseLine(PrintSite(sites[|sites| - 1])) == One(sites[|sites| - 1])
    ensures Parse(PrintLines(sites)) == Parsed(sites)
  {
    hide ParseLine, PrintSite, PrintLines, Parse;
    var n, lines := |sites| - 1, PrintLines(sites);
    PrintedLast(sites);
    ParseSnoc(lines, sites[..n], sites[n]);
    assert sites[..n] + [sites[n]] == sites;
  }

  lemma ParseSnoc(lines: seq<string>, sites: seq<Site>, last: Site)
    requires lines != [] && Parse(lines[..|lines| - 1]) == Parsed(sites) && ParseLine(lines[|lines| - 1]) == One(last)
    ensures Parse(lines) == Parsed(sites + [last])
  {
    hide ParseLine;
  }

  lemma PrintedTextScans(sites: seq<Site>)
    requires AllPlain(sites)
    ensures ScanLines(PrintText(sites)) == PrintLines(sites)
  {
    hide PrintSite, Split, Terminated;
    var lines := PrintLines(sites);
    forall k | 0 <= k < |lines| ensures Free(lines[k], '\n') && DropCr(lines[k]) == lines[k] {
      PrintedIsTrimmed(sites[k]);
      assert IsSpace('\r');
    }
    SplitTerminated(lines, '\n');
    assert (lines + [""])[..|lines|] == lines;
  }

  // ------------------------------------------------------------------ parsed sites are plain

  lemma FreeIsNotIn(s: string, t: string, c: char)
    requires Free(s, c) && forall x :: x in t ==> x in s
    ensures Free(t, c)
  {
    forall i | 0 <= i < |t| ensures t[i] != c {
      assert t[i] in s;
    }
  }

  lemma {:induction false} SplitNParts(s: string, c: char, n: nat)
    requires n >= 1
    ensures var r := SplitN(s, c, n);
            && (forall k :: 0 <= k < |r| - 1 ==> Free(r[k], c))
            && (forall k, x :: 0 <= k < |r| && x in r[k] ==> x in s)
            && r[0] <= s
  {
    var i := Find(s, c);
    if n > 1 && i < |s| {
      SplitNParts(s[i + 1..], c, n - 1);
      var r, rest := SplitN(s, c, n), SplitN(s[i + 1..], c, n - 1);
      assert r == [s[..i]] + rest;
      forall k | 0 < k < |r| ensures r[k] == rest[k - 1] {
      }
      forall k, x | 0 <= k < |r| && x in r[k] ensures x in s {
        if k > 0 {
          assert x in s[i + 1..];
        }
      }
    }
  }

  lemma {:induction false} SplitParts(s: string, c: char, k: nat)
    requires k < |Split(s, c)|
    ensures forall x :: x in Split(s, c)[k] ==> x in s
  {
    if s != "" {
      var rest := Split(s[1..], c);
      SplitParts(s[1..], c, 0);
      if k >= 1 {
        SplitParts(s[1..], c, if s[0] == c then k - 1 else k);
      }
    }
  }

  lemma TrimKeepsFirst(s: string)
    requires s != "" && !IsSpace(s[0])
    ensures TrimSpace(s) != "" ==> TrimSpace(s)[0] == s[0]
  {
  }

  lemma {:induction false} CommandsAreCommands(pieces: seq<string>)
    requires AllFree(pieces, ';') && AllFree(pieces, '\n')
    ensures AllCommands(Commands(pieces))
  {
    if pieces != [] {
      hide TrimSpace;
      var last := pieces[|pieces| - 1];
      CommandsAreCommands(pieces[..|pieces| - 1]);
      FreeIsNotIn(last, TrimSpace(last), ';');
      FreeIsNotIn(last, TrimSpace(last), '\n');
    }
  }

  lemma FieldOf(part: string)
    requires Free(part, '\n') && Free(part, '|')
    ensures Field(TrimSpace(part))
  {
    hide TrimSpace;
    FreeIsNotIn(part, TrimSpace(part), '\n');
    FreeIsNotIn(part, TrimSpace(part), '|');
  }

  lemma FifthField(part: string)
    requires Free(part, '\n')
    ensures AllCommands(Commands(Split(part, ';')))
  {
    var pieces := Split(part, ';');
    SplitIsFree(part, ';');
    forall k | 0 <= k < |pieces| ensures Free(pieces[k], '\n') {
      SplitParts(part, ';', k);
      FreeIsNotIn(part, pieces[k], '\n');
    }
    CommandsAreCommands(pieces);
  }

  lemma ParsedLineIsPlain(text: string)
    requires Free(text, '\n') && ParseLine(text).One?
    ensures Plain(ParseLine(text).site)
  {
    hide SplitN, TrimSpace, Commands, Split, Atoi, Field;
    var line := TrimSpace(text);
    FreeIsNotIn(text, line, '\n');
    var parts := SplitN(line, '|', 5);
    SplitNParts(line, '|', 5);
    forall k | 0 <= k < |parts| ensures Free(parts[k], '\n') {
      FreeIsNotIn(line, parts[k], '\n');
    }
    FieldOf(parts[0]);
    FieldOf(parts[1]);
    FieldOf(parts[2]);
    if parts[0] != "" {
      TrimKeepsFirst(parts[0]);
    }
    if |parts| == 5 {
      FifthField(parts[4]);
    }
  }

  lemma {:induction false} ParsedLinesArePlain(lines: seq<string>)
    requires AllFree(lines, '\n') && Parse(lines).Parsed?
    ensures AllPlain(Parse(lines).sites)
  {
    if lines != [] {
      hide ParseLine, Plain;
      var n := |lines| - 1;
      ParsedLinesArePlain(lines[..n]);
      if ParseLine(lines[n]).One? {
        ParsedLineIsPlain(lines[n]);
      }
    }
  }

  lemma ScannedLinesAreFree(text: string)
    ensures AllFree(ScanLines(text), '\n')
  {
    SplitIsFree(text, '\n');
  }

  // ------------------------------------------------------------------ the round trips

  // Printing sites and parsing the text gives the same sites.
  lemma PrintThenParse(sites: seq<Site>)
    requires AllPlain(sites)
    ensures ParseText(PrintText(sites)) == Parsed(sites)
  {
    PrintedTextScans(sites);
    PrintedLinesParse(sites);
  }

  // Sites come out of some text iff they are plain, so the round trip covers all a parse yields.
  lemma ParseableIffPlain(sites: seq<Site>)
    ensures AllPlain(sites) <==> exists text :: ParseText(text) == Parsed(sites)
  {
    hide ParseText, PrintText, Plain, Parse, ScanLines;
    if AllPlain(sites) {
      PrintThenParse(sites);
    }
    forall text | ParseText(text) == Parsed(sites) ensures AllPlain(sites) {
      ParsedTextIsPlain(text);
    }
  }

  lemma ParsedTextIsPlain(text: string)
    requires ParseText(text).Parsed?
    ensures AllPlain(ParseText(text).sites)
  {
    ScannedLinesAreFree(text);
    ParsedLinesArePlain(ScanLines(text));
  }

  // Printing what was parsed and parsing it again changes nothing.
  lemma ParsePrintParse(text: string)
    requires ParseText(text).Parsed?
    ensures ParseText(PrintText(ParseText(text).sites)) == ParseText(text)
  {
    hide ParseText, PrintText;
    ParsedTextIsPlain(text);
    PrintThenParse(ParseText(text).sites);
  }

  // Parsing line lists one after the other is parsing them together, errors included.
  lemma {:induction false} ParseConcat(a: seq<string>, b: seq<string>)
    ensures Parse(a + b) ==
            match Parse(a)
            case Parsed(x) =>
              (match Parse(b)
               case Parsed(y) => Parsed(x + y)
               case BadLine(number, why) => BadLine(|a| + number, why)
               case ReadFailed => ReadFailed)
            case _ => Parse(a)
  {
    if b == [] {
      assert a + b == a;
    } else {
      hide ParseLine;
      var n := |b| - 1;
      ParseConcat(a, b[..n]);
      assert (a + b)[..|a + b| - 1] == a + b[..n];
    }
  }

  // A site without a name parses, like any other.
  lemma NamelessSiteParses(s: Site)
    requires Plain(s) && s.name == ""
    ensures ParseText(PrintText([s])) == Parsed([s])
  {
    PrintThenParse([s]);
  }
}
