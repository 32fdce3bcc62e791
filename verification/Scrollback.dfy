/**
 What the connected screen shows: line endings normalised chunk by chunk, and a scrollback
 buffer trimmed after every chunk (internal/tui/connected.go).
 */
module Scrollback {
  import opened Text

  // ------------------------------------------------------------------ line endings

  // strings.ReplaceAll(s, "\r\n", "\n")
  function ReplaceCrLf(s: string): string {
    if s == "" then ""
    else if |s| >= 2 && s[0] == '\r' && s[1] == '\n' then "\n" + ReplaceCrLf(s[2..])
    else [s[0]] + ReplaceCrLf(s[1..])
  }

  // strings.ReplaceAll(s, "\r", "\n")
  function ReplaceCr(s: string): string {
    if s == "" then ""
    else [if s[0] == '\r' then '\n' else s[0]] + ReplaceCr(s[1..])
  }

  function Normalise(s: string): string {
    ReplaceCr(ReplaceCrLf(s))
  }

  // The same in one pass from left to right: CR LF and CR each become one line feed.
  function Scan(s: string): string {
    if s == "" then ""
    else if s[0] != '\r' then [s[0]] + Scan(s[1..])
    else if |s| >= 2 && s[1] == '\n' then "\n" + Scan(s[2..])
    else "\n" + Scan(s[1..])
  }

  lemma {:induction false} NormaliseIsScan(s: string)
    ensures Normalise(s) == Scan(s)
  {
    if s == "" {
    } else if |s| >= 2 && s[0] == '\r' && s[1] == '\n' {
      NormaliseIsScan(s[2..]);
      assert ("\n" + ReplaceCrLf(s[2..]))[1..] == ReplaceCrLf(s[2..]);
    } else {
      NormaliseIsScan(s[1..]);
      assert ([s[0]] + ReplaceCrLf(s[1..]))[1..] == ReplaceCrLf(s[1..]);
    }
  }

  lemma NormaliseLeavesNoCr(s: string)
    ensures Free(Normalise(s), '\r')
  {
    ReplaceCrLeavesNoCr(ReplaceCrLf(s));
  }

  lemma {:induction false} ReplaceCrLeavesNoCr(s: string)
    ensures Free(ReplaceCr(s), '\r')
  {
    if s != "" {
      ReplaceCrLeavesNoCr(s[1..]);
    }
  }

  lemma {:induction false} ScanWithoutCr(s: string)
    requires Free(s, '\r')
    ensures Scan(s) == s
  {
    if s != "" {
      ScanWithoutCr(s[1..]);
    }
  }

  lemma NormaliseIdempotent(s: string)
    ensures Normalise(Normalise(s)) == Normalise(s)
  {
    NormaliseLeavesNoCr(s);
    NormaliseIsScan(Normalise(s));
    ScanWithoutCr(Normalise(s));
  }

  // A CR LF pair is torn apart by the chunk boundary.
  predicate Torn(s: string, t: string) {
    |s| > 0 && s[|s| - 1] == '\r' && |t| > 0 && t[0] == '\n'
  }

  lemma Assoc(a: string, b: string, c: string)
    ensures (a + b) + c == a + (b + c)
  {
  }

  lemma ScanPair(s: string)
    requires |s| >= 2 && s[0] == '\r' && s[1] == '\n'
    ensures Scan(s) == "\n" + Scan(s[2..])
  {
  }

  lemma ScanChar(s: string)
    requires s != "" && !(|s| >= 2 && s[0] == '\r' && s[1] == '\n')
    ensures Scan(s) == [if s[0] == '\r' then '\n' else s[0]] + Scan(s[1..])
  {
  }

  // The last character of a chunk, before the next chunk.
  lemma ScanLast(c: char, t: string)
    ensures Scan([c] + t) == Scan([c]) + Scan(if Torn([c], t) then t[1..] else t)
  {
    hide Scan;
    var s := [c] + t;
    assert s[1..] == t && [c][1..] == "";
    ScanChar([c]);
    ScanEmpty();
    if Torn([c], t) {
      assert s[2..] == t[1..];
      ScanPair(s);
    } else {
      ScanChar(s);
    }
  }

  lemma ScanEmpty()
    ensures Scan("") == ""
  {
  }

  lemma {:induction false} ScanConcat(s: string, t: string)
    ensures Scan(s + t) == Scan(s) + Scan(if Torn(s, t) then t[1..] else t)
  {
    hide Scan;
    var rest := Scan(if Torn(s, t) then t[1..] else t);
    if s == "" {
      assert s + t == t;
      ScanEmpty();
    } else if |s| == 1 {
      assert s == [s[0]];
      ScanLast(s[0], t);
    } else if s[0] == '\r' && s[1] == '\n' {
      assert (s + t)[2..] == s[2..] + t;
      ScanConcat(s[2..], t);
      ScanPair(s);
      ScanPair(s + t);
      Assoc("\n", Scan(s[2..]), rest);
    } else {
      assert (s + t)[1..] == s[1..] + t;
      ScanConcat(s[1..], t);
      ScanChar(s);
      ScanChar(s + t);
      Assoc([if s[0] == '\r' then '\n' else s[0]], Scan(s[1..]), rest);
    }
  }

  // Chunk by chunk gives the same text, except that each torn pair costs one extra line feed.
  lemma NormaliseInChunks(s: string, t: string)
    ensures Torn(s, t) ==>
              Normalise(s) + Normalise(t) == Normalise(s) + "\n" + Normalise(t[1..])
              && Normalise(s + t) == Normalise(s) + Normalise(t[1..])
    ensures Normalise(s + t) == Normalise(s) + Normalise(t) <==> !Torn(s, t)
  {
    NormaliseIsScan(s + t);
    NormaliseIsScan(s);
    NormaliseIsScan(t);
    ScanConcat(s, t);
    if Torn(s, t) {
      NormaliseIsScan(t[1..]);
      assert Scan(t) == "\n" + Scan(t[1..]);
      assert |Scan(s + t)| < |Scan(s) + Scan(t)|;
    }
  }

  // ------------------------------------------------------------------ trimming

  function Last<T>(xs: seq<T>, n: nat): seq<T> {
    if |xs| > n then xs[|xs| - n..] else xs
  }

  // trimOutput, for a limit of `n` lines.
  function Trim(s: string, n: nat): string {
    var lines := Split(s, '\n');
    if |lines| > n then Join(lines[|lines| - n..], '\n') else s
  }

  lemma TrimIsLastLines(s: string, n: nat)
    requires n > 0
    ensures Trim(s, n) == Join(Last(Split(s, '\n'), n), '\n')
    ensures Split(Trim(s, n), '\n') == Last(Split(s, '\n'), n)
  {
    var lines := Split(s, '\n');
    SplitIsFree(s, '\n');
    JoinSplit(s, '\n');
    SplitJoin(Last(lines, n), '\n');
  }

  lemma LastOfGlue(a: seq<string>, b: seq<string>, n: nat)
    requires n > 0 && |a| >= 1 && |b| >= 1
    ensures Last(Glue(Last(a, n), b), n) == Last(Glue(a, b), n)
  {
    var x, y := Glue(Last(a, n), b), Glue(a, b);
    if |a| > n {
      assert x == y[|a| - n..];
    }
  }

  // Trimming what was trimmed before is trimming everything at once.
  lemma TrimConcat(s: string, t: string, n: nat)
    requires n > 0
    ensures Trim(Trim(s, n) + t, n) == Trim(s + t, n)
  {
    TrimIsLastLines(s, n);
    TrimIsLastLines(Trim(s, n) + t, n);
    TrimIsLastLines(s + t, n);
    SplitConcat(s, t, '\n');
    SplitConcat(Trim(s, n), t, '\n');
    LastOfGlue(Split(s, '\n'), Split(t, '\n'), n);
  }

  // Trimming keeps a suffix of the text that has at most `n` lines.
  lemma TrimKeepsSuffix(s: string, n: nat)
    requires n > 0
    ensures |Trim(s, n)| <= |s| && s[|s| - |Trim(s, n)|..] == Trim(s, n)
    ensures |Trim(s, n)| < |s| ==> s[|s| - |Trim(s, n)| - 1] == '\n'
    ensures |Split(Trim(s, n), '\n')| == if |Split(s, '\n')| > n then n else |Split(s, '\n')|
  {
    TrimIsLastLines(s, n);
    JoinSplit(s, '\n');
    var lines := Split(s, '\n');
    if |lines| > n {
      JoinSuffix(lines, |lines| - n);
    }
  }

  lemma {:induction false} JoinSuffix(ls: seq<string>, k: nat)
    requires k < |ls|
    ensures var r := Join(ls[k..], '\n'); var s := Join(ls, '\n');
            && |r| <= |s| && s[|s| - |r|..] == r
            && (k > 0 ==> |r| < |s| && s[|s| - |r| - 1] == '\n')
  {
    if k > 0 {
      JoinSuffix(ls[1..], k - 1);
      assert ls[1..][k - 1..] == ls[k..];
    }
  }
}
