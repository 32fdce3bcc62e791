/**
 The AT transcript (cleanResponse, logCmd, logResp; internal/modem/modem.go:302-325, 374-385):
 one line for each command and each response that is not blank.
 */
module Transcript {
  import opened Seqs
  import opened Text

  // unicode.IsPrint is a table; all that matters of it is that the space is the only white
  // space it admits.
  ghost predicate IsPrintTable(p: char -> bool) {
    p(' ') && forall c: char :: p(c) && IsSpace(c) ==> c == ' '
  }

  function Blank(c: char, p: char -> bool): char {
    if c == '\r' || c == '\n' || c == '\t' then ' ' else if !p(c) then ' ' else c
  }

  function Blanked(s: string, p: char -> bool): string {
    seq(|s|, i requires 0 <= i < |s| => Blank(s[i], p))
  }

  // strings.Fields: the runs of characters that are not white space.
  function Fields(s: string): seq<string> {
    FieldsFrom(s, "")
  }

  // Fields of word + s, where word is the run being read.
  function FieldsFrom(s: string, word: string): seq<string> {
    if s == "" then Flush(word)
    else if IsSpace(s[0]) then Flush(word) + FieldsFrom(s[1..], "")
    else FieldsFrom(s[1..], word + [s[0]])
  }

  function Flush(word: string): seq<string> {
    if word == "" then [] else [word]
  }

  function Clean(s: string, p: char -> bool): string {
    Join(Fields(Blanked(s, p)), ' ')
  }

  // ------------------------------------------------------------------ cleaning

  ghost predicate Solid(w: string) {
    w != "" && forall i :: 0 <= i < |w| ==> !IsSpace(w[i])
  }

  ghost predicate Words(ws: seq<string>) {
    forall k :: 0 <= k < |ws| ==> Solid(ws[k])
  }

  ghost predicate Over(s: string, p: char -> bool) {
    forall i :: 0 <= i < |s| ==> p(s[i])
  }

  ghost predicate AllOver(ws: seq<string>, p: char -> bool) {
    forall k :: 0 <= k < |ws| ==> Over(ws[k], p)
  }

  lemma {:induction false} FieldsAreWords(s: string, word: string, p: char -> bool)
    requires word == "" || Solid(word)
    requires Over(s, p) && Over(word, p)
    ensures Words(FieldsFrom(s, word)) && AllOver(FieldsFrom(s, word), p)
  {
    if s != "" {
      if IsSpace(s[0]) {
        FieldsAreWords(s[1..], "", p);
      } else {
        FieldsAreWords(s[1..], word + [s[0]], p);
      }
    }
  }

  lemma {:induction false} FieldsOfSolid(w: string, rest: string, word: string)
    requires forall i :: 0 <= i < |w| ==> !IsSpace(w[i])
    ensures FieldsFrom(w + rest, word) == FieldsFrom(rest, word + w)
  {
    if w == "" {
      assert w + rest == rest && word + w == word;
    } else {
      FieldsOfSolid(w[1..], rest, word + [w[0]]);
      assert (w + rest)[1..] == w[1..] + rest;
      assert word + [w[0]] + w[1..] == word + w;
    }
  }

  lemma {:induction false} FieldsOfJoin(ws: seq<string>)
    requires Words(ws)
    ensures Fields(Join(ws, ' ')) == ws
  {
    if |ws| == 1 {
      FieldsOfSolid(ws[0], "", "");
      assert ws[0] + "" == ws[0] && "" + ws[0] == ws[0];
    } else if |ws| > 1 {
      var rest := [' '] + Join(ws[1..], ' ');
      FieldsOfSolid(ws[0], rest, "");
      assert ws[0] + [' '] + Join(ws[1..], ' ') == ws[0] + rest;
      assert "" + ws[0] == ws[0];
      assert rest[1..] == Join(ws[1..], ' ');
      FieldsOfJoin(ws[1..]);
    }
  }

  lemma {:induction false} FieldsBreak(a: string, c: char, b: string, word: string)
    requires IsSpace(c)
    ensures FieldsFrom(a + [c] + b, word) == FieldsFrom(a, word) + Fields(b)
  {
    var s := a + [c] + b;
    if a == "" {
      assert s[1..] == b;
    } else {
      assert s[1..] == a[1..] + [c] + b;
      FieldsBreak(a[1..], c, b, if IsSpace(a[0]) then "" else word + [a[0]]);
    }
  }

  // The fields of a text are its runs of characters that are not white space: any white space
  // between two parts separates their fields, a part without any is a field, and nothing is none.
  lemma FieldsAreTheRuns(a: string, c: char, b: string)
    requires IsSpace(c)
    ensures Fields(a + [c] + b) == Fields(a) + Fields(b)
    ensures Solid(a) ==> Fields(a) == [a]
    ensures Fields("") == []
  {
    FieldsBreak(a, c, b, "");
    if Solid(a) {
      FieldsOfSolid(a, "", "");
      assert a + "" == a && "" + a == a;
    }
  }

  lemma {:induction false} JoinOver(ws: seq<string>, p: char -> bool)
    requires AllOver(ws, p) && p(' ')
    ensures Over(Join(ws, ' '), p)
  {
    if |ws| > 1 {
      JoinOver(ws[1..], p);
    }
  }

  lemma BlankedOver(s: string, p: char -> bool)
    requires IsPrintTable(p)
    ensures Over(Blanked(s, p), p)
  {
  }

  lemma BlankedStays(s: string, p: char -> bool)
    requires IsPrintTable(p) && Over(s, p)
    ensures Blanked(s, p) == s
  {
    forall i | 0 <= i < |s| ensures Blank(s[i], p) == s[i] {
      assert p(s[i]);
      assert IsSpace('\r') && IsSpace('\n') && IsSpace('\t');
    }
  }

  lemma CleanIsOver(s: string, p: char -> bool)
    requires IsPrintTable(p)
    ensures Over(Clean(s, p), p) && Words(Fields(Blanked(s, p)))
  {
    hide Blanked;
    BlankedOver(s, p);
    FieldsAreWords(Blanked(s, p), "", p);
    JoinOver(Fields(Blanked(s, p)), p);
  }

  // Cleaning keeps the printable words of a response, in order, and nothing else: what is left
  // has the same words, no line break, and is not changed by cleaning it again.
  lemma CleanKeepsWords(s: string, p: char -> bool)
    requires IsPrintTable(p)
    ensures Fields(Clean(s, p)) == Fields(Blanked(s, p))
    ensures Clean(Clean(s, p), p) == Clean(s, p)
    ensures Free(Clean(s, p), '\n')
  {
    hide Blanked, Fields;
    CleanIsOver(s, p);
    FieldsOfJoin(Fields(Blanked(s, p)));
    BlankedStays(Clean(s, p), p);
    assert IsSpace('\n');
  }

  // ------------------------------------------------------------------ the log

  datatype Entry = Sent(cmd: string) | Heard(resp: string)

  function CommandLine(cmd: string): string {
    ">>> " + cmd
  }

  function ResponseLine(cleaned: string): string {
    "<<< " + cleaned
  }

  // The lines an exchange adds to the transcript.
  function Lines(e: Entry, p: char -> bool): seq<string> {
    match e
    case Sent(cmd) => [CommandLine(cmd)]
    case Heard(resp) => if Clean(resp, p) == "" then [] else [ResponseLine(Clean(resp, p))]
  }

  function Written(es: seq<Entry>, p: char -> bool): string {
    if es == [] then ""
    else Written(es[..|es| - 1], p) + Terminated(Lines(es[|es| - 1], p), '\n')
  }

  // Reading a transcript back.
  function ParseLine(line: string): seq<Entry> {
    if |line| < 4 then []
    else if line[..4] == ">>> " then [Sent(line[4..])]
    else if line[..4] == "<<< " then [Heard(line[4..])]
    else []
  }

  function ParseLines(lines: seq<string>): seq<Entry> {
    FlatMap(ParseLine, lines)
  }

  // What a transcript keeps: every command, and every response that is not blank, cleaned.
  function Kept(es: seq<Entry>, p: char -> bool): seq<Entry> {
    if es == [] then []
    else
      Kept(es[..|es| - 1], p)
      + match es[|es| - 1]
        case Sent(cmd) => [Sent(cmd)]
        case Heard(resp) => if Clean(resp, p) == "" then [] else [Heard(Clean(resp, p))]
  }

  ghost predicate OneLineCommands(es: seq<Entry>) {
    forall k :: 0 <= k < |es| && es[k].Sent? ==> Free(es[k].cmd, '\n')
  }

  function AllLines(es: seq<Entry>, p: char -> bool): seq<string> {
    if es == [] then [] else AllLines(es[..|es| - 1], p) + Lines(es[|es| - 1], p)
  }

  lemma {:induction false} TerminatedConcat(a: seq<string>, b: seq<string>, c: char)
    ensures Terminated(a + b, c) == Terminated(a, c) + Terminated(b, c)
  {
    hide Terminated;
    if b == [] {
      assert a + b == a;
      TerminatedNothing(c);
    } else {
      var some, line := b[..|b| - 1], b[|b| - 1];
      TerminatedConcat(a, some, c);
      TerminatedMore(some, line, c);
      TerminatedMore(a + some, line, c);
      assert a + b == (a + some) + [line] && b == some + [line];
      var x, y, z := Terminated(a, c), Terminated(some, c), line + [c];
      assert x + y + z == x + (y + z);
    }
  }

  lemma TerminatedNothing(c: char)
    ensures Terminated([], c) == ""
  {
  }

  lemma TerminatedMore(ls: seq<string>, line: string, c: char)
    ensures Terminated(ls + [line], c) == Terminated(ls, c) + (line + [c])
  {
    assert (ls + [line])[..|ls|] == ls;
    assert Terminated(ls, c) + line + [c] == Terminated(ls, c) + (line + [c]);
  }

  lemma {:induction false} WrittenIsLines(es: seq<Entry>, p: char -> bool)
    ensures Written(es, p) == Terminated(AllLines(es, p), '\n')
  {
    if es != [] {
      hide Terminated, Lines;
      WrittenIsLines(es[..|es| - 1], p);
      TerminatedConcat(AllLines(es[..|es| - 1], p), Lines(es[|es| - 1], p), '\n');
    } else {
    }
  }

  lemma {:induction false} LinesAreFree(es: seq<Entry>, p: char -> bool)
    requires IsPrintTable(p) && OneLineCommands(es)
    ensures AllFree(AllLines(es, p), '\n')
  {
    if es != [] {
      hide Clean;
      LinesAreFree(es[..|es| - 1], p);
      var e := es[|es| - 1];
      if e.Heard? {
        CleanKeepsWords(e.resp, p);
      }
    }
  }

  lemma ParseConcat(a: seq<string>, b: seq<string>)
    ensures ParseLines(a + b) == ParseLines(a) + ParseLines(b)
  {
    FlatMapConcat(ParseLine, a, b);
  }

  lemma ParseOwnLine(text: string)
    ensures ParseLine(CommandLine(text)) == [Sent(text)]
    ensures ParseLine(ResponseLine(text)) == [Heard(text)]
  {
  }

  lemma {:induction false} ParseAllLines(es: seq<Entry>, p: char -> bool)
    ensures ParseLines(AllLines(es, p)) == Kept(es, p)
  {
    if es != [] {
      hide Clean, ParseLine, CommandLine, ResponseLine;
      var before, e := es[..|es| - 1], es[|es| - 1];
      ParseAllLines(before, p);
      ParseConcat(AllLines(before, p), Lines(e, p));
      ParseOwnLine(if e.Sent? then e.cmd else Clean(e.resp, p));
    }
  }

  // Splitting a transcript at its line ends and reading each line gives back the commands and
  // the cleaned responses, in order; each takes exactly one line.
  lemma TranscriptRoundTrip(es: seq<Entry>, p: char -> bool)
    requires IsPrintTable(p) && OneLineCommands(es)
    ensures ParseLines(Split(Written(es, p), '\n')) == Kept(es, p)
    ensures |Split(Written(es, p), '\n')| == |Kept(es, p)| + 1
  {
    hide Written, Split, Lines, Clean, AllLines;
    WrittenIsLines(es, p);
    LinesAreFree(es, p);
    SplitTerminated(AllLines(es, p), '\n');
    ParseAllLines(es, p);
    ParseConcat(AllLines(es, p), [""]);
    assert ParseLines([""]) == [] by { assert ParseLine("") == []; }
    LineCount(es, p);
  }

  lemma {:induction false} LineCount(es: seq<Entry>, p: char -> bool)
    ensures |AllLines(es, p)| == |Kept(es, p)|
  {
    if es != [] {
      LineCount(es[..|es| - 1], p);
    }
  }
}
