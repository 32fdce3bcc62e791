/**
 Which lines of a site file count, and as what (ParseSites, internal/config/sites.go:27-65): blank
 lines and comments are skipped, a good line is a site, and the first other line is the error.
 White space around fields and commands does not matter.
 */
module SiteLines {
  import opened Wrappers
  import opened Text
  import opened Seqs
  import opened Sites
  import opened SiteFiles

  // ------------------------------------------------------------------ white space

  ghost predicate White(s: string) {
    forall i :: 0 <= i < |s| ==> IsSpace(s[i])
  }

  lemma {:induction false} TrimLeftPad(w: string, t: string)
    requires White(w)
    ensures TrimLeft(w + t) == TrimLeft(t)
  {
    if w == "" {
      assert w + t == t;
    } else {
      TrimLeftPad(w[1..], t);
      assert (w + t)[1..] == w[1..] + t;
    }
  }

  lemma {:induction false} TrimRightPad(t: string, w: string)
    requires White(w)
    ensures TrimRight(t + w) == TrimRight(t)
  {
    if w == "" {
      assert t + w == t;
    } else {
      TrimRightPad(t, w[..|w| - 1]);
      assert (t + w)[..|t + w| - 1] == t + w[..|w| - 1];
    }
  }

  lemma {:induction false} TrimLeftParts(s: string) returns (w: string)
    ensures White(w) && s == w + TrimLeft(s)
  {
    if s != "" && IsSpace(s[0]) {
      var v := TrimLeftParts(s[1..]);
      w := [s[0]] + v;
    } else {
      w := "";
    }
  }

  lemma {:induction false} TrimRightParts(s: string) returns (w: string)
    ensures White(w) && s == TrimRight(s) + w
  {
    if s != "" && IsSpace(s[|s| - 1]) {
      var v := TrimRightParts(s[..|s| - 1]);
      w := v + [s[|s| - 1]];
      assert s == s[..|s| - 1] + [s[|s| - 1]];
    } else {
      w := "";
    }
  }

  lemma TrimParts(s: string) returns (w: string, w': string)
    ensures White(w) && White(w') && s == w + TrimSpace(s) + w'
  {
    w := TrimLeftParts(s);
    w' := TrimRightParts(TrimLeft(s));
  }

  // ------------------------------------------------------------------ lines that do not count

  ghost predicate Comment(line: string) {
    exists i :: 0 <= i < |line| && line[i] == '#' && forall k :: 0 <= k < i ==> IsSpace(line[k])
  }

  // Nothing but white space, or '#' as the first other character.
  ghost predicate Skippable(line: string) {
    White(line) || Comment(line)
  }

  lemma SkippedIff(line: string)
    ensures ParseLine(line).Skip? <==> Skippable(line)
  {
    var w, w' := TrimParts(line);
    var t := TrimSpace(line);
    hide TrimSpace, SplitN, Atoi, Commands, Split;
    assert IsSpace('#') == false;
    if t == "" {
      assert White(line);
    } else {
      assert line[|w|] == t[0];
      if t[0] == '#' {
        assert Comment(line);
      } else {
        assert !IsSpace(line[|w|]);
      }
    }
  }

  // ------------------------------------------------------------------ good lines

  function Bars(s: string): nat {
    if s == "" then 0 else Bars(s[1..]) + if s[0] == '|' then 1 else 0
  }

  function Unsigned(s: string): string {
    if s != "" && (s[0] == '+' || s[0] == '-') then s[1..] else s
  }

  function Magnitude(s: string): nat {
    if s == "" then 0
    else 10 * Magnitude(s[..|s| - 1]) + if IsDigit(s[|s| - 1]) then Digit(s[|s| - 1]) else 0
  }

  // An optional sign and digits, within 64 bits.
  ghost predicate IsInteger(s: string) {
    && Digits(Unsigned(s))
    && Magnitude(Unsigned(s)) <= 0x7fff_ffff_ffff_ffff + if s[0] == '-' then 1 else 0
  }

  lemma {:induction false} NumberIsMagnitude(s: string)
    ensures Number(s) == if Digits(s) then Some(Magnitude(s)) else None
  {
    if s != "" {
      var n := |s| - 1;
      NumberIsMagnitude(s[..n]);
      assert Digits(s) <==> (s[..n] == "" || Digits(s[..n])) && IsDigit(s[n]);
      assert Magnitude("") == 0;
    }
  }

  lemma AtoiIff(s: string)
    ensures Atoi(s) == if !IsInteger(s) then None
                       else Some(if s[0] == '-' then 0 - Magnitude(Unsigned(s)) else Magnitude(Unsigned(s)))
  {
    if s == "" {
      assert Unsigned(s) == "";
    } else {
      NumberIsMagnitude(Unsigned(s));
    }
    hide Number, Magnitude;
  }

  // At least four fields between bars, the fourth an integer.
  ghost predicate Good(line: string) {
    Bars(line) >= 3 && |Split(line, '|')| > 3 && IsInteger(TrimSpace(Split(line, '|')[3]))
  }

  lemma {:induction false} PiecesAreBars(s: string)
    ensures |Split(s, '|')| == Bars(s) + 1
  {
    if s != "" {
      PiecesAreBars(s[1..]);
    }
  }

  lemma SplitBar(a: string, rest: string, c: char)
    requires Free(a, c)
    ensures Split(a + [c] + rest, c) == [a] + Split(rest, c)
  {
    SplitFree(a, c);
    SplitConcat(a, [c] + rest, c);
    assert a + [c] + rest == a + ([c] + rest) && ([c] + rest)[1..] == rest;
    assert Split([c] + rest, c) == [""] + Split(rest, c);
    hide Split;
    assert a + "" == a;
  }

  lemma SplitAtFind(s: string, c: char)
    ensures Split(s, c) == if Find(s, c) == |s| then [s] else [s[..Find(s, c)]] + Split(s[Find(s, c) + 1..], c)
  {
    hide Split;
    var i := Find(s, c);
    hide Find;
    if i == |s| {
      SplitFree(s, c);
    } else {
      SplitBar(s[..i], s[i + 1..], c);
      assert s == s[..i] + [c] + s[i + 1..];
    }
  }

  // strings.SplitN gives the first pieces as strings.Split does, and the rest as one.
  lemma {:induction false} SplitNPieces(s: string, c: char, n: nat)
    requires n >= 1
    ensures SplitN(s, c, n) == Limited(Split(s, c), c, n)
  {
    hide Split, Find, Join;
    SplitAtFind(s, c);
    var i := Find(s, c);
    if n > 1 && i < |s| {
      SplitNPieces(s[i + 1..], c, n - 1);
      FirstThenRest(s[..i], Split(s[i + 1..], c), c, n);
    } else {
      JoinSplit(s, c);
      assert Split(s, c)[0..] == Split(s, c);
    }
  }

  // Pieces p, all of them or the first n - 1 and the rest joined.
  function Limited(p: seq<string>, c: char, n: nat): seq<string>
    requires n >= 1
  {
    if |p| <= n then p else p[..n - 1] + [Join(p[n - 1..], c)]
  }

  lemma FirstThenRest(first: string, q: seq<string>, c: char, n: nat)
    requires n > 1
    ensures [first] + Limited(q, c, n - 1) == Limited([first] + q, c, n)
  {
    if |q| > n - 1 {
      assert ([first] + q)[..n - 1] == [first] + q[..n - 2];
      assert ([first] + q)[n - 1..] == q[n - 2..];
    }
  }

  // What becomes of a line.
  lemma LineFate(line: string)
    ensures ParseLine(line).Skip? <==> Skippable(line)
    ensures ParseLine(line).One? <==> !Skippable(line) && Good(line)
    ensures ParseLine(line).Wrong? && ParseLine(line).why.TooFewFields? ==>
              ParseLine(line).why.got == Bars(line) + 1 < 4
  {
    SkippedIff(line);
    var t := TrimSpace(line);
    PiecesAreBars(line);
    PiecesAreBars(t);
    SplitNPieces(t, '|', 5);
    TrimmingKeepsFields(line);
    assert AlikeInside(Split(line, '|'), Split(t, '|'));
    hide TrimSpace, SplitN, Atoi, Commands, Split, Bars, Skippable, CommandsIn, AfterFour;
    var parts := SplitN(t, '|', 5);
    if |parts| >= 4 {
      AtoiIff(TrimSpace(parts[3]));
    }
  }

  // ------------------------------------------------------------------ whole files

  ghost predicate Fine(line: string) {
    Skippable(line) || Good(line)
  }

  ghost predicate AllFine(lines: seq<string>) {
    forall k: nat :: k < |lines| ==> Fine(lines[k])
  }

  lemma AllFineLast(lines: seq<string>)
    requires lines != []
    ensures var n := |lines| - 1; AllFine(lines) <==> AllFine(lines[..n]) && Fine(lines[n])
  {
    hide Fine;
    var n := |lines| - 1;
    assert forall k: nat :: k < n ==> lines[..n][k] == lines[k];
  }

  // A file parses iff every line that counts is good; else the error names the first one that is
  // not.
  lemma {:induction false} ParsedIffAllFine(lines: seq<string>)
    ensures Parse(lines).Parsed? <==> AllFine(lines)
    ensures Parse(lines).BadLine? ==>
              var n := Parse(lines).number;
              1 <= n <= |lines| && !Fine(lines[n - 1]) && AllFine(lines[..n - 1])
    ensures !Parse(lines).ReadFailed?
  {
    if lines != [] {
      hide ParseLine, Fine, AllFine;
      var n := |lines| - 1;
      var before := lines[..n];
      ParsedIffAllFine(before);
      FineIff(lines[n]);
      AllFineLast(lines);
      if Parse(before).BadLine? {
        assert before[..Parse(before).number - 1] == lines[..Parse(before).number - 1];
      }
    }
  }

  lemma FineIff(line: string)
    ensures Fine(line) <==> !ParseLine(line).Wrong?
  {
    LineFate(line);
    hide ParseLine, Skippable, Good;
  }

  function SiteOf(line: string): seq<Site> {
    if ParseLine(line).One? then [ParseLine(line).site] else []
  }

  // The sites are those of the lines, in order.
  lemma {:induction false} SitesAreTheLines(lines: seq<string>)
    requires Parse(lines).Parsed?
    ensures Parse(lines).sites == FlatMap(SiteOf, lines)
  {
    if lines != [] {
      hide ParseLine;
      SitesAreTheLines(lines[..|lines| - 1]);
    }
  }

  // Leaving out a line that is blank or a comment changes neither whether a file parses nor its
  // sites.
  lemma SkippableDoesNotMatter(before: seq<string>, line: string, after: seq<string>)
    requires Skippable(line)
    ensures Parse(before + [line] + after).Parsed? <==> Parse(before + after).Parsed?
    ensures Parse(before + after).Parsed? ==> Parse(before + [line] + after) == Parse(before + after)
  {
    SkippedIff(line);
    hide ParseLine, Skippable;
    ParseConcat(before, after);
    ParseConcat(before + [line], after);
    ParseConcat(before, [line]);
    assert [line][..0] == [];
    assert Parse([line]) == Parsed([]);
    if Parse(before).Parsed? {
      assert Parse(before).sites + [] == Parse(before).sites;
    }
  }

  // ------------------------------------------------------------------ the fields of a line

  lemma TrimPadLeft(w: string, x: string)
    requires White(w)
    ensures TrimSpace(w + x) == TrimSpace(x)
  {
    TrimLeftPad(w, x);
  }

  lemma {:induction false} TrimPadRight(x: string, w: string)
    requires White(w)
    ensures TrimSpace(x + w) == TrimSpace(x)
  {
    if x == "" {
      assert x + w == w + "";
      TrimLeftPad(w, "");
    } else if IsSpace(x[0]) {
      TrimPadRight(x[1..], w);
      assert (x + w)[1..] == x[1..] + w;
    } else {
      TrimRightPad(x, w);
    }
  }

  // The same pieces up to white space at their ends.
  ghost predicate AlikeInside(p: seq<string>, q: seq<string>) {
    |p| == |q| && forall k :: 0 <= k < |p| ==> TrimSpace(p[k]) == TrimSpace(q[k])
  }

  // White space at the end of a text goes to its last piece, white space at its start to the first.
  lemma SplitPadRight(t: string, w: string, c: char)
    requires White(w) && !IsSpace(c)
    ensures var q := Split(t, c); Split(t + w, c) == q[..|q| - 1] + [q[|q| - 1] + w]
    ensures AlikeInside(Split(t + w, c), Split(t, c))
  {
    hide Split, TrimSpace;
    SplitFree(w, c);
    SplitConcat(t, w, c);
    var q := Split(t, c);
    TrimPadRight(q[|q| - 1], w);
    hide White, Free;
  }

  lemma SplitPadLeft(w: string, t: string, c: char)
    requires White(w) && !IsSpace(c)
    ensures var q := Split(t, c); Split(w + t, c) == [w + q[0]] + q[1..]
    ensures AlikeInside(Split(w + t, c), Split(t, c))
  {
    hide Split, TrimSpace;
    SplitFree(w, c);
    SplitConcat(w, t, c);
    var q := Split(t, c);
    TrimPadLeft(w, q[0]);
    hide White, Free;
    assert [w][..0] == [];
  }

  lemma {:induction false} JoinPadRight(q: seq<string>, w: string, c: char)
    requires q != []
    ensures Join(q[..|q| - 1] + [q[|q| - 1] + w], c) == Join(q, c) + w
  {
    if |q| > 1 {
      var r := q[1..];
      JoinPadRight(r, w, c);
      assert (q[..|q| - 1] + [q[|q| - 1] + w])[1..] == r[..|r| - 1] + [r[|r| - 1] + w];
    }
  }

  lemma {:induction false} CommandsOfAlike(p: seq<string>, q: seq<string>)
    requires AlikeInside(p, q)
    ensures Commands(p) == Commands(q)
  {
    if p != [] {
      hide TrimSpace;
      CommandsOfAlike(p[..|p| - 1], q[..|q| - 1]);
    }
  }

  function CommandsIn(field: string): seq<string> {
    Commands(Split(field, ';'))
  }

  lemma CommandsPadRight(field: string, w: string)
    requires White(w)
    ensures CommandsIn(field + w) == CommandsIn(field)
  {
    SplitPadRight(field, w, ';');
    CommandsOfAlike(Split(field + w, ';'), Split(field, ';'));
  }

  lemma BlankFieldHasNone(field: string)
    requires TrimSpace(field) == ""
    ensures CommandsIn(field) == []
  {
    var w, w' := TrimParts(field);
    assert field == "" + (w + w');
    CommandsPadRight("", w + w');
    assert Commands([""]) == [] by {
      assert [""][..0] == [];
    }
  }

  // What follows the fourth bar.
  function AfterFour(p: seq<string>): string
    requires |p| >= 4
  {
    Join(p[4..], '|')
  }

  lemma AlikeThrough(p: seq<string>, m: seq<string>, q: seq<string>)
    requires AlikeInside(p, m) && AlikeInside(m, q)
    ensures AlikeInside(p, q) && |p| == |q|
  {
    hide TrimSpace;
  }

  // Trimming the line first changes no field.
  lemma TrimmingKeepsFields(line: string)
    ensures var p, q := Split(line, '|'), Split(TrimSpace(line), '|');
            && AlikeInside(p, q)
            && (|p| >= 4 ==> CommandsIn(AfterFour(p)) == CommandsIn(AfterFour(q)))
  {
    hide Split, TrimSpace, CommandsIn, AfterFour, AlikeInside, White;
    var w, w' := TrimParts(line);
    var t := TrimSpace(line);
    var p, m, q := Split(line, '|'), Split(t + w', '|'), Split(t, '|');
    assert line == w + (t + w');
    SplitPadLeft(w, t + w', '|');
    SplitPadRight(t, w', '|');
    AlikeThrough(p, m, q);
    if |p| >= 4 {
      RestIsPadded(p, m, q, w, w');
    }
  }

  lemma RestIsPadded(p: seq<string>, m: seq<string>, q: seq<string>, w: string, w': string)
    requires White(w') && |q| >= 4
    requires m == q[..|q| - 1] + [q[|q| - 1] + w'] && p == [w + m[0]] + m[1..]
    ensures CommandsIn(AfterFour(p)) == CommandsIn(AfterFour(q))
  {
    assert p[4..] == m[4..];
    if |q| > 4 {
      var r := q[4..];
      assert m[4..] == r[..|r| - 1] + [r[|r| - 1] + w'];
      JoinPadRight(r, w', '|');
      CommandsPadRight(Join(r, '|'), w');
    } else {
      assert m[4..] == q[4..];
    }
  }

  // The site of a line: the fields between its bars, each without the white space around it, the
  // fourth as a number, and what follows the fourth bar cut at ';'.
  lemma SiteOfALine(line: string)
    requires ParseLine(line).One?
    ensures var p, s := Split(line, '|'), ParseLine(line).site;
            && |p| >= 4
            && s.name == TrimSpace(p[0]) && s.phone == TrimSpace(p[1]) && s.description == TrimSpace(p[2])
            && Atoi(TrimSpace(p[3])) == Some(s.baudRate)
            && s.modemInit == CommandsIn(AfterFour(p))
  {
    var t := TrimSpace(line);
    var q := Split(t, '|');
    TrimmingKeepsFields(line);
    SplitNPieces(t, '|', 5);
    assert AlikeInside(Split(line, '|'), q);
    hide Split, SplitN, TrimSpace, Atoi, CommandsIn, AfterFour;
    FirstPieces(q, SplitN(t, '|', 5));
  }

  lemma FirstPieces(q: seq<string>, parts: seq<string>)
    requires parts == if |q| <= 5 then q else q[..4] + [Join(q[4..], '|')]
    requires ParseFields(parts).One?
    ensures |q| >= 4 && parts[..4] == q[..4]
    ensures ParseFields(parts).site.modemInit == CommandsIn(AfterFour(q))
  {
    hide Split, Commands, Atoi, TrimSpace;
    if |q| >= 5 {
      assert |q| == 5 ==> q[4..] == [q[4]];
      assert parts[4] == AfterFour(q);
      if TrimSpace(parts[4]) == "" {
        BlankFieldHasNone(parts[4]);
      }
    } else if |q| == 4 {
      BlankFieldHasNone("");
    }
  }

  // ------------------------------------------------------------------ white space around fields

  // A text with white space around it.
  datatype Padded = Padded(left: string, text: string, right: string)

  function Whole(p: Padded): string {
    p.left + p.text + p.right
  }

  ghost predicate Pads(p: Padded) {
    White(p.left) && White(p.right)
  }

  lemma PaddedTrims(p: Padded)
    requires Pads(p) && Trimmed(p.text)
    ensures TrimSpace(Whole(p)) == p.text
  {
    TrimPadLeft(p.left, p.text + p.right);
    TrimPadRight(p.text, p.right);
    assert Whole(p) == p.left + (p.text + p.right);
  }

  lemma PaddedIsFree(p: Padded, c: char)
    requires Pads(p) && Free(p.text, c) && !IsSpace(c)
    ensures Free(Whole(p), c)
  {
  }

  function Texts(ps: seq<Padded>): seq<string> {
    seq(|ps|, k requires 0 <= k < |ps| => ps[k].text)
  }

  function Wholes(ps: seq<Padded>): seq<string> {
    seq(|ps|, k requires 0 <= k < |ps| => Whole(ps[k]))
  }

  ghost predicate AllPad(ps: seq<Padded>) {
    forall k :: 0 <= k < |ps| ==> Pads(ps[k])
  }

  // Commands with white space around them are those commands.
  lemma PaddedCommands(ps: seq<Padded>)
    requires ps != [] && AllPad(ps) && AllCommands(Texts(ps))
    ensures CommandsIn(Join(Wholes(ps), ';')) == Texts(ps)
  {
    var ws, ts := Wholes(ps), Texts(ps);
    forall k | 0 <= k < |ps| ensures Free(ws[k], ';') && TrimSpace(ws[k]) == TrimSpace(ts[k]) {
      assert Command(ts[k]);
      PaddedIsFree(ps[k], ';');
      PaddedTrims(ps[k]);
    }
    hide TrimSpace, Whole;
    SplitJoin(ws, ';');
    CommandsOfAlike(ws, ts);
    CommandsStay(ts);
  }

  function PaddedLine(fields: seq<Padded>, cmds: seq<Padded>): string {
    Join(Wholes(fields) + if cmds == [] then [] else [Join(Wholes(cmds), ';')], '|')
  }

  // A line with white space around its fields and its commands is the site without it.
  lemma PaddedLineParses(s: Site, fields: seq<Padded>, cmds: seq<Padded>)
    requires Plain(s) && AllPad(fields) && AllPad(cmds)
    requires Texts(fields) == [s.name, s.phone, s.description, Itoa(s.baudRate)] && Texts(cmds) == s.modemInit
    ensures ParseLine(PaddedLine(fields, cmds)) == One(s)
  {
    var line := PaddedLine(fields, cmds);
    hide Split, Whole, Itoa, Atoi, TrimSpace, PaddedLine, ParseLine, Plain, CommandsIn, AfterFour, AllCommands;
    PaddedFields(s, fields);
    PaddedPieces(fields, cmds);
    PaddedIsGood(line, s);
    SiteOfALine(line);
    if cmds == [] {
      BlankFieldHasNone("");
    } else {
      PlainCommands(s);
      PaddedCommands(cmds);
    }
  }

  lemma PlainCommands(s: Site)
    requires Plain(s)
    ensures AllCommands(s.modemInit)
  {
  }

  lemma PaddedIsGood(line: string, s: Site)
    requires var p := Split(line, '|');
             |p| >= 4 && TrimSpace(p[0]) == s.name && Atoi(TrimSpace(p[3])) == Some(s.baudRate)
    requires Plain(s)
    ensures ParseLine(line).One?
  {
    hide Split, TrimSpace, ParseLine, Atoi, Skippable, Bars, IsInteger, Field;
    LineFate(line);
    if Skippable(line) {
      SkippableWithBars(line);
    }
    PiecesAreBars(line);
    AtoiIff(TrimSpace(Split(line, '|')[3]));
  }

  // A line with bars is skipped only if its first field begins with '#'.
  lemma SkippableWithBars(line: string)
    requires Skippable(line) && |Split(line, '|')| > 1
    ensures var f := TrimSpace(Split(line, '|')[0]); f != "" && f[0] == '#'
  {
    SkippedIff(line);
    TrimmingKeepsFields(line);
    var t := TrimSpace(line);
    var q := Split(t, '|');
    assert AlikeInside(Split(line, '|'), q);
    assert |q| > 1 && t[0] == '#' && q[0] != "" && q[0][0] == '#';
    assert !IsSpace('#');
    hide Split, AlikeInside;
    NotAllWhite(q[0]);
    TrimKeepsFirst(q[0]);
  }

  lemma NotAllWhite(y: string)
    requires y != "" && !IsSpace(y[0])
    ensures TrimSpace(y) != ""
  {
    var v := TrimRightParts(y);
    assert TrimLeft(y) == y;
    assert y[0] == (TrimRight(y) + v)[0];
  }

  lemma {:induction false} JoinAppend(a: seq<string>, q: seq<string>, c: char)
    requires a != [] && q != []
    ensures Join(a + q, c) == Join(a, c) + [c] + Join(q, c)
  {
    assert (a + q)[1..] == a[1..] + q;
    if |a| > 1 {
      JoinAppend(a[1..], q, c);
    } else {
      assert a[1..] + q == q;
    }
  }

  lemma PaddedPieces(fields: seq<Padded>, cmds: seq<Padded>)
    requires |fields| == 4 && AllFree(Wholes(fields), '|')
    ensures var p := Split(PaddedLine(fields, cmds), '|');
            && |p| >= 4 && p[..4] == Wholes(fields)
            && AfterFour(p) == if cmds == [] then "" else Join(Wholes(cmds), ';')
  {
    var ws, x := Wholes(fields), Join(Wholes(cmds), ';');
    if cmds == [] {
      SplitJoin(ws, '|');
      assert ws + [] == ws;
    } else {
      var q := Split(x, '|');
      SplitIsFree(x, '|');
      JoinSplit(x, '|');
      JoinAppend(ws, q, '|');
      JoinAppend(ws, [x], '|');
      assert AllFree(ws + q, '|');
      SplitJoin(ws + q, '|');
      assert (ws + q)[4..] == q;
    }
  }

  lemma PaddedFields(s: Site, fields: seq<Padded>)
    requires Plain(s) && AllPad(fields)
    requires Texts(fields) == [s.name, s.phone, s.description, Itoa(s.baudRate)]
    ensures |fields| == 4 && AllFree(Wholes(fields), '|')
    ensures forall k :: 0 <= k < 4 ==> TrimSpace(Wholes(fields)[k]) == Texts(fields)[k]
    ensures Atoi(Itoa(s.baudRate)) == Some(s.baudRate)
  {
    ItoaReads(s.baudRate);
    hide Itoa, TrimSpace, Atoi;
    assert |fields| == |Texts(fields)|;
    forall k | 0 <= k < 4 ensures Free(Wholes(fields)[k], '|') && TrimSpace(Wholes(fields)[k]) == Texts(fields)[k] {
      assert Field(Texts(fields)[k]) || k == 3;
      PaddedIsFree(fields[k], '|');
      PaddedTrims(fields[k]);
    }
  }
}
