/**
 Which processes in a process listing are the bridge (parseBridgeRunning and the line filter of
 killBridgeProcess, internal/tui/bridge.go): the listing is that of pgrep -fa, a process id and a
 command line on each line, and slmodemd, the parent, names the bridge in its arguments.
 */
module Bridge {
  import opened Seqs
  import opened Text
  import opened Sites
  import opened Transcript
  import opened Modem

  const BRIDGE: string := "slmodem-sip-bridge"
  const PARENT: string := "slmodemd"

  // A line that stands for a running bridge.
  predicate IsBridge(line: string) {
    Contains(TrimSpace(line), BRIDGE) && !Contains(TrimSpace(line), PARENT)
  }

  // The process id a line gives the killer, if any.
  function Target(line: string): seq<string> {
    var fields := Fields(TrimSpace(line));
    if TrimSpace(line) == "" || Contains(TrimSpace(line), PARENT) || |fields| < 2 then [] else [fields[0]]
  }

  method ParseBridgeRunning(output: string) returns (running: bool)
    ensures running <==> exists line :: line in Split(output, '\n') && IsBridge(line)
  {
    hide Split, TrimSpace, Contains;
    NothingIsBridge();
    var lines := Split(output, '\n');
    for i := 0 to |lines|
      invariant forall k :: 0 <= k < i ==> !IsBridge(lines[k])
    {
      var line := TrimSpace(lines[i]);
      if line == "" {
        continue;
      }
      var hasBridge := Contains(line, BRIDGE);
      var hasSlmodemd := Contains(line, PARENT);
      if hasBridge && !hasSlmodemd {
        assert lines[i] in Split(output, '\n') && IsBridge(lines[i]);
        return true;
      }
    }
    return false;
  }

  lemma NothingIsBridge()
    ensures !Contains("", BRIDGE)
  {
  }

  // The processes sent SIGTERM, in order.
  method KillBridgeProcess(output: string) returns (killed: seq<string>)
    ensures killed == FlatMap(Target, Split(output, '\n'))
  {
    hide Split, TrimSpace, Contains, Fields;
    var lines := Split(output, '\n');
    killed := [];
    for i := 0 to |lines|
      invariant killed == FlatMap(Target, lines[..i])
    {
      assert lines[..i + 1][..i] == lines[..i];
      var line := TrimSpace(lines[i]);
      if line == "" || Contains(line, PARENT) {
        continue;
      }
      var fields := Fields(line);
      if |fields| < 2 {
        continue;
      }
      killed := killed + [fields[0]];
    }
    assert lines[..|lines|] == lines;
  }

  lemma {:induction false} InFlatMap(lines: seq<string>, pid: string)
    ensures pid in FlatMap(Target, lines) <==> exists line :: line in lines && Target(line) == [pid]
  {
    if lines != [] {
      hide Target;
      var n := |lines| - 1;
      InFlatMap(lines[..n], pid);
      assert |Target(lines[n])| <= 1 by { AtMostOneTarget(lines[n]); }
      assert lines == lines[..n] + [lines[n]];
      if Target(lines[n]) == [pid] {
        assert lines[n] in lines;
      }
    }
  }

  lemma AtMostOneTarget(line: string)
    ensures |Target(line)| <= 1
  {
    hide Fields, TrimSpace, Contains;
  }

  // A line the killer takes a process id from.
  predicate IsTarget(line: string) {
    !Contains(TrimSpace(line), PARENT) && |Fields(TrimSpace(line))| >= 2
  }

  // A line that names neither program: pgrep prints none, but the killer does not check.
  predicate IsStray(line: string) {
    IsTarget(line) && !Contains(TrimSpace(line), BRIDGE)
  }

  lemma NoFieldsInNothing()
    ensures Fields("") == []
  {
  }

  lemma TargetOf(line: string)
    ensures Target(line) == if IsTarget(line) then [Fields(TrimSpace(line))[0]] else []
  {
    NoFieldsInNothing();
    hide Fields, TrimSpace, Contains;
  }

  // A listed process whose command line names the bridge, and not its parent, counts as running
  // and is sent the signal.
  lemma BridgeIsSeenAndKilled(pid: string, cmd: string)
    requires Solid(pid) && Contains(cmd, "slmodem-sip-bridge") && Trimmed(cmd)
    requires !Contains(pid + " " + cmd, "slmodemd")
    ensures IsBridge(pid + " " + cmd) && Target(pid + " " + cmd) == [pid]
  {
    var line := pid + " " + cmd;
    assert cmd != "" by {
      NotInNothing("slmodem-sip-bridge");
    }
    assert Trimmed(line) && TrimSpace(line) == line;
    hide TrimSpace;
    ContainsAfter(pid + " ", cmd, "slmodem-sip-bridge");
    FieldsAreTheRuns(pid, ' ', cmd);
    SomeField(cmd, "");
    hide Contains, Fields, IsTarget;
  }

  // A line that names the parent neither counts nor is sent anything.
  lemma ParentIsLeftAlone(before: string, after: string)
    requires Trimmed(before + "slmodemd" + after)
    ensures var line := before + "slmodemd" + after; !IsBridge(line) && Target(line) == []
  {
    var line := before + "slmodemd" + after;
    assert TrimSpace(line) == line;
    assert line == before + ("slmodemd" + after);
    assert OccursAt(line, "slmodemd", |before|);
    hide TrimSpace, Fields;
  }

  lemma NotInNothing(t: string)
    requires t != ""
    ensures !Contains("", t)
  {
  }

  lemma ContainsAfter(a: string, s: string, t: string)
    requires Contains(s, t)
    ensures Contains(a + s, t)
  {
    var i: nat :| i <= |s| && OccursAt(s, t, i);
    assert (a + s)[|a| + i..|a| + i + |t|] == s[i..i + |t|];
    assert OccursAt(a + s, t, |a| + i);
  }

  lemma {:induction false} SomeField(s: string, word: string)
    requires word != "" || (s != "" && !IsSpace(s[0]))
    ensures FieldsFrom(s, word) != []
  {
    if s != "" && !IsSpace(s[0]) {
      SomeField(s[1..], word + [s[0]]);
    }
  }

  // What is killed is exactly the first field of every line that has two and does not name the
  // parent, whatever else it says.
  lemma KilledAre(output: string, pid: string)
    ensures pid in FlatMap(Target, Split(output, '\n'))
       <==> exists line :: line in Split(output, '\n') && IsTarget(line) && Fields(TrimSpace(line))[0] == pid
  {
    hide Split, TrimSpace, Contains, Fields, FlatMap, Target;
    var lines := Split(output, '\n');
    InFlatMap(lines, pid);
    forall line ensures Target(line) == if IsTarget(line) then [Fields(TrimSpace(line))[0]] else [] {
      TargetOf(line);
    }
  }

  lemma AnyKilled(output: string)
    ensures FlatMap(Target, Split(output, '\n')) != [] <==> exists line :: line in Split(output, '\n') && IsTarget(line)
  {
    hide Split, TrimSpace, Contains, Fields, FlatMap, Target;
    var killed := FlatMap(Target, Split(output, '\n'));
    if killed != [] {
      KilledAre(output, killed[0]);
    }
    forall line | line in Split(output, '\n') && IsTarget(line) ensures killed != [] {
      KilledAre(output, Fields(TrimSpace(line))[0]);
    }
  }

  // The process id of a line that stands for a running bridge, if it has one.
  function BridgeTarget(line: string): seq<string> {
    if IsBridge(line) then Target(line) else []
  }

  lemma BridgeTargetOf(line: string)
    ensures if IsStray(line) then |Target(line)| == 1 && BridgeTarget(line) == []
            else BridgeTarget(line) == Target(line)
  {
    TargetOf(line);
    hide Fields, TrimSpace, Contains, Target;
  }

  lemma {:induction false} OnlyBridgesIff(lines: seq<string>)
    ensures |FlatMap(BridgeTarget, lines)| <= |FlatMap(Target, lines)|
    ensures FlatMap(BridgeTarget, lines) == FlatMap(Target, lines) ==> forall line :: line in lines ==> !IsStray(line)
    ensures (forall line :: line in lines ==> !IsStray(line)) ==> FlatMap(BridgeTarget, lines) == FlatMap(Target, lines)
    ensures |FlatMap(BridgeTarget, lines)| == |FlatMap(Target, lines)| ==>
              forall line :: line in lines ==> !IsStray(line)
  {
    if lines != [] {
      hide Target, BridgeTarget, IsStray;
      var n := |lines| - 1;
      OnlyBridgesIff(lines[..n]);
      BridgeTargetOf(lines[n]);
      assert lines == lines[..n] + [lines[n]];
    }
  }

  // What is killed is just the running bridges, in order, iff there is no stray line.
  lemma KillsOnlyBridgesIff(output: string)
    ensures FlatMap(Target, Split(output, '\n')) == FlatMap(BridgeTarget, Split(output, '\n'))
       <==> forall line :: line in Split(output, '\n') ==> !IsStray(line)
  {
    hide Split, FlatMap, Target, BridgeTarget, IsStray;
    OnlyBridgesIff(Split(output, '\n'));
  }

  // The two filters disagree on exactly two kinds of listing.  Something is killed though no
  // bridge is seen running iff no bridge is and there is a stray line; and a bridge is seen
  // running but nothing killed iff the bridges' lines have one field only and there is no stray
  // line.
  lemma FiltersDisagreeIff(output: string)
    ensures var lines := Split(output, '\n');
            var running := exists line :: line in lines && IsBridge(line);
            var killed := FlatMap(Target, lines) != [];
            var stray := exists line :: line in lines && IsStray(line);
            && (killed && !running <==> stray && !running)
            && (running && !killed <==>
                running && !stray && forall line :: line in lines && IsBridge(line) ==> |Fields(TrimSpace(line))| < 2)
  {
    hide Split, TrimSpace, Contains, Fields, FlatMap, Target;
    AnyKilled(output);
    forall line ensures IsTarget(line) ==> IsBridge(line) || IsStray(line)
      ensures IsStray(line) ==> IsTarget(line)
      ensures IsBridge(line) && |Fields(TrimSpace(line))| >= 2 ==> IsTarget(line)
    {
    }
  }
}
