/** Splitting and joining at a separator, as Go's strings.Split and strings.Join do. */
module Text {
  // Always at least one piece; the pieces do not contain the separator.
  function Split(s: string, c: char): (r: seq<string>)
    ensures |r| >= 1
  {
    if s == "" then [""]
    else
      var rest := Split(s[1..], c);
      if s[0] == c then [""] + rest else [[s[0]] + rest[0]] + rest[1..]
  }

  function Join(ls: seq<string>, c: char): string {
    if |ls| == 0 then ""
    else if |ls| == 1 then ls[0]
    else ls[0] + [c] + Join(ls[1..], c)
  }

  ghost predicate Free(s: string, c: char) {
    forall i :: 0 <= i < |s| ==> s[i] != c
  }

  ghost predicate AllFree(ls: seq<string>, c: char) {
    forall k :: 0 <= k < |ls| ==> Free(ls[k], c)
  }

  lemma {:induction false} SplitIsFree(s: string, c: char)
    ensures AllFree(Split(s, c), c)
  {
    if s != "" {
      SplitIsFree(s[1..], c);
    }
  }

  lemma JoinPrepend(x: char, ls: seq<string>, c: char)
    requires |ls| >= 1
    ensures Join([[x] + ls[0]] + ls[1..], c) == [x] + Join(ls, c)
  {
    if |ls| > 1 {
      assert ([[x] + ls[0]] + ls[1..])[1..] == ls[1..];
    }
  }

  lemma {:induction false} JoinSplit(s: string, c: char)
    ensures Join(Split(s, c), c) == s
  {
    if s != "" {
      var rest := Split(s[1..], c);
      JoinSplit(s[1..], c);
      if s[0] == c {
        assert ([""] + rest)[1..] == rest;
      } else {
        JoinPrepend(s[0], rest, c);
      }
    }
  }

  // Pieces side by side: the last of the first text and the first of the second become one.
  function Glue(a: seq<string>, b: seq<string>): seq<string>
    requires |a| >= 1 && |b| >= 1
  {
    a[..|a| - 1] + [a[|a| - 1] + b[0]] + b[1..]
  }

  lemma GlueAfterFirst(x: string, a: seq<string>, b: seq<string>)
    requires |a| >= 1 && |b| >= 1
    ensures Glue([x] + a, b) == [x] + Glue(a, b)
  {
    assert ([x] + a)[..|a|] == [x] + a[..|a| - 1];
  }

  lemma GluePrepend(x: char, a: seq<string>, b: seq<string>)
    requires |a| >= 1 && |b| >= 1
    ensures var g := Glue(a, b); Glue([[x] + a[0]] + a[1..], b) == [[x] + g[0]] + g[1..]
  {
    if |a| == 1 {
      assert ([x] + a[0]) + b[0] == [x] + (a[0] + b[0]);
    } else {
      GlueAfterFirst([x] + a[0], a[1..], b);
      GlueAfterFirst(a[0], a[1..], b);
      assert a == [a[0]] + a[1..];
    }
  }

  lemma {:induction false} SplitConcat(s: string, t: string, c: char)
    ensures Split(s + t, c) == Glue(Split(s, c), Split(t, c))
  {
    var b := Split(t, c);
    if s == "" {
      assert s + t == t;
      assert "" + b[0] == b[0];
    } else {
      var rest := Split(s[1..], c);
      SplitConcat(s[1..], t, c);
      assert (s + t)[1..] == s[1..] + t;
      if s[0] == c {
        GlueAfterFirst("", rest, b);
      } else {
        GluePrepend(s[0], rest, b);
      }
    }
  }

  lemma {:induction false} SplitFree(s: string, c: char)
    requires Free(s, c)
    ensures Split(s, c) == [s]
  {
    if s != "" {
      SplitFree(s[1..], c);
      assert [s[0]] + s[1..] == s;
    }
  }

  lemma {:induction false} SplitJoin(ls: seq<string>, c: char)
    requires |ls| >= 1 && AllFree(ls, c)
    ensures Split(Join(ls, c), c) == ls
  {
    SplitFree(ls[0], c);
    if |ls| == 1 {
      assert ls == [ls[0]];
    } else {
      var rest := Join(ls[1..], c);
      SplitJoin(ls[1..], c);
      SplitConcat(ls[0], [c] + rest, c);
      assert ([c] + rest)[1..] == rest;
      assert ls[0] + [c] + rest == ls[0] + ([c] + rest);
      assert Glue([ls[0]], [""] + ls[1..]) == ls by {
        assert ls[0] + "" == ls[0];
      }
    }
  }

  // Lines that each end with the separator.
  function Terminated(ls: seq<string>, c: char): string {
    if ls == [] then "" else Terminated(ls[..|ls| - 1], c) + ls[|ls| - 1] + [c]
  }

  lemma SplitLine(line: string, c: char)
    requires Free(line, c)
    ensures Split(line + [c], c) == [line, ""]
  {
    SplitFree(line, c);
    SplitConcat(line, [c], c);
    assert [c][1..] == "";
    assert line + "" == line;
  }

  lemma GlueLine(ls: seq<string>, line: string)
    ensures Glue(ls + [""], [line, ""]) == ls + [line] + [""]
  {
    assert "" + line == line;
    assert (ls + [""])[..|ls|] == ls;
  }

  lemma {:induction false} SplitTerminated(ls: seq<string>, c: char)
    requires AllFree(ls, c)
    ensures Split(Terminated(ls, c), c) == ls + [""]
  {
    if ls != [] {
      var before, last := ls[..|ls| - 1], ls[|ls| - 1];
      SplitTerminated(before, c);
      SplitLine(last, c);
      SplitConcat(Terminated(before, c), last + [c], c);
      assert Terminated(before, c) + last + [c] == Terminated(before, c) + (last + [c]);
      GlueLine(before, last);
      assert before + [last] == ls;
    }
  }

  // unicode.IsSpace.
  predicate IsSpace(c: char) {
    var n := c as int;
    || 9 <= n <= 13 || n == 32 || n == 0x85 || n == 0xA0 || n == 0x1680 || 0x2000 <= n <= 0x200A
    || n == 0x2028 || n == 0x2029 || n == 0x202F || n == 0x205F || n == 0x3000
  }
}
