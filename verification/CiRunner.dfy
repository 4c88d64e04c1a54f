/** The verification runner: its two command loops, the manifest it keeps writing, and the names of its artifacts. */
module CiRunner {
  import opened Text

  datatype Command = Command(name: string)

  /** How a command ended. */
  datatype Outcome = Exited(code: int) | TimedOut

  datatype CommandResult = CommandResult(index: nat, name: string, status: string, returnCode: int, timedOut: bool)

  datatype Manifest = Manifest(status: string, commands: seq<CommandResult>)

  predicate Passed(r: CommandResult) { r.status == "passed" }

  /** A command passes exactly when it exits with 0; a timeout is recorded as the failure 124. */
  function RunCommand(index: nat, command: Command, outcome: Outcome): (r: CommandResult)
    ensures Passed(r) <==> outcome == Exited(0)
    ensures !Passed(r) ==> r.status == "failed"
    ensures outcome.TimedOut? ==> r.timedOut && r.returnCode == 124
    ensures outcome.Exited? ==> !r.timedOut && r.returnCode == outcome.code
    ensures r.index == index && r.name == command.name
  {
    var code := if outcome.TimedOut? then 124 else outcome.code;
    CommandResult(index, command.name, if code == 0 then "passed" else "failed", code, outcome.TimedOut?)
  }

  /** How the commands would end, by position. */
  type World = (nat, Command) -> Outcome

  /** What running all the commands in order would record. */
  function AllResults(commands: seq<Command>, world: World): (results: seq<CommandResult>)
    ensures |results| == |commands|
  {
    seq(|commands|, i requires 0 <= i < |commands| => RunCommand(i + 1, commands[i], world(i + 1, commands[i])))
  }

  /** One more command, one more result. */
  lemma NextResult(commands: seq<Command>, world: World, i: nat)
    requires i < |commands|
    ensures var results := AllResults(commands, world);
            && results[i] == RunCommand(i + 1, commands[i], world(i + 1, commands[i]))
            && results[..i + 1] == results[..i] + [results[i]]
  {
  }

  predicate AllPassed(results: seq<CommandResult>) { forall i :: 0 <= i < |results| ==> Passed(results[i]) }

  function FirstFailure(results: seq<CommandResult>): (i: nat)
    ensures i <= |results| && AllPassed(results[..i]) && (i < |results| ==> !Passed(results[i]))
  {
    if results == [] || !Passed(results[0]) then 0 else 1 + FirstFailure(results[1..])
  }

  /** How many of the commands are run: up to the first failure when failing fast, otherwise to the end of the main
      commands or, when those all pass, to the end. */
  function RunCount(results: seq<CommandResult>, mains: nat, failFast: bool): (n: nat)
    requires mains <= |results|
    ensures n <= |results|
  {
    var f := FirstFailure(results);
    if f == |results| then |results|
    else if failFast then f + 1
    else if f < mains then mains
    else |results|
  }

  lemma FirstFailureIs(results: seq<CommandResult>, i: nat)
    requires i <= |results| && AllPassed(results[..i]) && (i < |results| ==> !Passed(results[i]))
    ensures FirstFailure(results) == i
  {
    var f := FirstFailure(results);
    assert forall k :: 0 <= k < i ==> results[..i][k] == results[k];
    assert forall k :: 0 <= k < f ==> results[..f][k] == results[k];
  }

  /** A manifest that reads "failed" records a failed command and every other does not; "passed" is only written once
      all the main commands have been recorded. */
  predicate Honest(m: Manifest, mains: nat) {
    && (m.status == "failed" <==> !AllPassed(m.commands))
    && (m.status == "passed" ==> |m.commands| >= mains)
    && m.status in ["running", "failed", "passed"]
  }

  /** No manifest written so far reads "passed". */
  predicate NonePassed(writes: seq<Manifest>) { forall i :: 0 <= i < |writes| ==> writes[i].status != "passed" }

  lemma NonePassedPush(writes: seq<Manifest>, m: Manifest)
    ensures NonePassed(writes + [m]) <==> NonePassed(writes) && m.status != "passed"
  {
    var more := writes + [m];
    assert more[|writes|] == m && forall i :: 0 <= i < |writes| ==> more[i] == writes[i];
  }

  lemma PassedPrefix(history: seq<Manifest>, writes: seq<Manifest>)
    requires history <= writes && !NonePassed(history)
    ensures !NonePassed(writes)
  {
    var i :| 0 <= i < |history| && history[i].status == "passed";
    assert writes[i].status == "passed";
  }

  /** The manifests written: each is honest, and each extends the one before it. */
  predicate HonestHistory(writes: seq<Manifest>, mains: nat) {
    && (forall i :: 0 <= i < |writes| ==> Honest(writes[i], mains))
    && (forall i :: 0 <= i < |writes| - 1 ==> writes[i].commands <= writes[i + 1].commands)
  }

  lemma AllPassedPush(results: seq<CommandResult>, r: CommandResult)
    ensures AllPassed(results + [r]) <==> AllPassed(results) && Passed(r)
  {
    var more := results + [r];
    assert more[|results|] == r && forall i :: 0 <= i < |results| ==> more[i] == results[i];
  }

  lemma HistoryPush(writes: seq<Manifest>, m: Manifest, mains: nat)
    requires writes != [] && HonestHistory(writes, mains) && Honest(m, mains)
    requires writes[|writes| - 1].commands <= m.commands
    ensures HonestHistory(writes + [m], mains)
  {
    hide Honest;
  }

  /** Appends one result to a manifest. */
  method Record(manifest: Manifest, index: nat, command: Command, world: World, failedBefore: bool, otherwise: string, mains: nat)
    returns (next: Manifest, failed: bool)
    requires failedBefore <==> !AllPassed(manifest.commands)
    requires otherwise == "running" || (otherwise == "passed" && |manifest.commands| >= mains)
    ensures next.commands == manifest.commands + [RunCommand(index, command, world(index, command))]
    ensures (failed <==> !AllPassed(next.commands)) && Honest(next, mains)
    ensures next.status == if failed then "failed" else otherwise
  {
    var result := RunCommand(index, command, world(index, command));
    AllPassedPush(manifest.commands, result);
    failed := failedBefore;
    if result.status != "passed" {
      failed := true;
    }
    next := Manifest(if failed then "failed" else otherwise, manifest.commands + [result]);
  }

  method RunMain(main: seq<Command>, failFast: bool, world: World) returns (manifest: Manifest, writes: seq<Manifest>, failed: bool)
    ensures var results := AllResults(main, world);
            manifest.commands == results[..RunCount(results, |results|, failFast)]
    ensures failed <==> !AllPassed(manifest.commands)
    ensures Honest(manifest, |main|) && HonestHistory(writes, |main|) && writes != [] && writes[|writes| - 1] == manifest
    ensures !failed ==> |manifest.commands| == |main|
    ensures NonePassed(writes)
  {
    hide RunCount, HonestHistory, AllPassed, Honest, RunCommand, AllResults, FirstFailure, NonePassed;
    ghost var results := AllResults(main, world);
    manifest := Manifest("running", []);
    writes := [manifest];
    failed := false;
    HistoryStart(|main|);
    NonePassedPush([], manifest);
    assert [] + [manifest] == writes;
    var i := 0;
    while i < |main|
      invariant i <= |main| && manifest.commands == results[..i]
      invariant failed <==> !AllPassed(manifest.commands)
      invariant !(failed && failFast)
      invariant Honest(manifest, |main|) && HonestHistory(writes, |main|) && writes != [] && writes[|writes| - 1] == manifest
      invariant NonePassed(writes)
    {
      NextResult(main, world, i);
      var next, stop := Record(manifest, i + 1, main[i], world, failed, "running", |main|);
      HistoryPush(writes, next, |main|);
      NonePassedPush(writes, next);
      AllPassedPush(manifest.commands, results[i]);
      manifest, failed := next, stop;
      writes := writes + [manifest];
      if failed && failFast {
        FirstFailureIs(results, i);
        MainStop(results, failFast, i + 1);
        return;
      }
      i := i + 1;
    }
    assert results[..|main|] == results;
    if failFast {
      FirstFailureIs(results, |main|);
    }
    MainStop(results, failFast, |main|);
  }

  lemma HistoryStart(mains: nat)
    ensures NonePassed([]) && AllPassed([])
    ensures Honest(Manifest("running", []), mains) && HonestHistory([Manifest("running", [])], mains)
  {
  }

  lemma MainStop(results: seq<CommandResult>, failFast: bool, n: nat)
    requires if failFast && n > 0 && FirstFailure(results) == n - 1 then n <= |results|
             else n == |results| && (failFast ==> FirstFailure(results) == n)
    ensures n == RunCount(results, |results|, failFast)
  {
  }

  /** The post commands, after main commands that all passed. */
  method RunPost(start: Manifest, history: seq<Manifest>, main: seq<Command>, post: seq<Command>, failFast: bool, world: World)
    returns (manifest: Manifest, writes: seq<Manifest>, failed: bool)
    requires start == Manifest("passed", AllResults(main + post, world)[..|main|]) && AllPassed(start.commands)
    requires HonestHistory(history, |main|) && history != [] && history[|history| - 1] == start
    ensures var results := AllResults(main + post, world);
            manifest.commands == results[..RunCount(results, |main|, failFast)]
    ensures failed <==> !AllPassed(manifest.commands)
    ensures manifest.status == if failed then "failed" else "passed"
    ensures HonestHistory(writes, |main|) && writes != [] && writes[|writes| - 1] == manifest && history <= writes
  {
    hide RunCount, HonestHistory, AllPassed, Honest, RunCommand, AllResults, FirstFailure;
    ghost var results := AllResults(main + post, world);
    manifest, writes, failed := start, history, false;
    var i := 0;
    ghost var n := |main|;
    while i < |post|
      invariant i <= |post| && n == |main| + i && manifest.commands == results[..n]
      invariant failed <==> !AllPassed(manifest.commands)
      invariant !(failed && failFast)
      invariant manifest.status == if failed then "failed" else "passed"
      invariant HonestHistory(writes, |main|) && writes != [] && writes[|writes| - 1] == manifest && history <= writes
    {
      assert (main + post)[n] == post[i];
      NextResult(main + post, world, n);
      var next, stop := Record(manifest, |manifest.commands| + 1, post[i], world, failed, "passed", |main|);
      HistoryPush(writes, next, |main|);
      AllPassedPush(manifest.commands, results[n]);
      manifest, failed := next, stop;
      writes := writes + [manifest];
      if failed && failFast {
        FirstFailureIs(results, n);
        PostEnd(results, |main|, failFast, n + 1);
        return;
      }
      i, n := i + 1, n + 1;
    }
    assert results[..|results|] == results;
    if failFast {
      FirstFailureIs(results, |results|);
    }
    PostEnd(results, |main|, failFast, |results|);
  }

  /** Besides the record and its honest history: the manifest reads "passed" at some time and "failed" in the end exactly
      when all the main commands pass and a post command does not. */
  method Run(main: seq<Command>, post: seq<Command>, failFast: bool, world: World)
    returns (manifest: Manifest, writes: seq<Manifest>, exitCode: int)
    ensures var results := AllResults(main + post, world);
            manifest.commands == results[..RunCount(results, |main|, failFast)]
    ensures manifest.status == if AllPassed(manifest.commands) then "passed" else "failed"
    ensures exitCode == if AllPassed(manifest.commands) then 0 else 2
    ensures HonestHistory(writes, |main|) && writes != [] && writes[|writes| - 1] == manifest
    ensures var results := AllResults(main + post, world);
            manifest.status == "failed" && !NonePassed(writes) <==> AllPassed(results[..|main|]) && !AllPassed(results)
  {
    hide RunCount, HonestHistory, AllPassed, NonePassed;
    ghost var results := AllResults(main + post, world);
    assert results[..|main|] == AllResults(main, world);
    var failed;
    manifest, writes, failed := RunMain(main, failFast, world);
    MainEnd(results, |main|, failFast);
    manifest := manifest.(status := if failed then "failed" else "passed");
    HistoryPush(writes, manifest, |main|);
    NonePassedPush(writes, manifest);
    writes := writes + [manifest];
    RunCountFacts(results, |main|, failFast);
    if !failed {
      ghost var history := writes;
      manifest, writes, failed := RunPost(manifest, writes, main, post, failFast, world);
      PassedPrefix(history, writes);
    }
    exitCode := if failed then 2 else 0;
  }

  /** Where a run that stops after the main commands stops. */
  lemma MainEnd(results: seq<CommandResult>, mains: nat, failFast: bool)
    requires mains <= |results|
    ensures var main := results[..mains];
            var n := RunCount(main, mains, failFast);
            && (!AllPassed(main[..n]) ==> n == RunCount(results, mains, failFast))
            && (AllPassed(main[..n]) ==> n == mains && main[..n] == main)
            && (AllPassed(main[..n]) <==> AllPassed(main))
  {
    var main := results[..mains];
    var f, g := FirstFailure(main), FirstFailure(results);
    if f < mains {
      assert results[..f] == main[..f];
      FirstFailureIs(results, f);
      assert main[..RunCount(main, mains, failFast)][f] == main[f];
    } else {
      assert main[..f] == main;
    }
  }

  /** Where a run that goes on to the post commands stops. */
  lemma PostEnd(results: seq<CommandResult>, mains: nat, failFast: bool, n: nat)
    requires mains <= n <= |results| && AllPassed(results[..mains])
    requires n == |results| || (failFast && n > 0 && FirstFailure(results) == n - 1)
    requires failFast ==> n == 0 || AllPassed(results[..n]) || FirstFailure(results) == n - 1
    ensures n == RunCount(results, mains, failFast)
  {
    var f := FirstFailure(results);
    assert forall k :: 0 <= k < mains ==> results[..mains][k] == results[k];
    if failFast && n == |results| && AllPassed(results[..n]) {
      assert results[..n] == results;
      FirstFailureIs(results, n);
    }
  }

  /** What the count says of the record: post commands are there only if all main commands passed, and when failing fast
      only the last record can be a failure. */
  lemma RunCountFacts(results: seq<CommandResult>, mains: nat, failFast: bool)
    requires mains <= |results|
    ensures var n := RunCount(results, mains, failFast);
            && (n > mains ==> AllPassed(results[..mains]))
            && (failFast && n > 0 ==> AllPassed(results[..n - 1]))
            && (AllPassed(results[..n]) <==> AllPassed(results))
            && (AllPassed(results) ==> n == |results|)
            && (!failFast ==> n >= mains)
  {
    var f, n := FirstFailure(results), RunCount(results, mains, failFast);
    if f < |results| {
      assert f < n && results[..n][f] == results[f];
      if f >= mains {
        assert results[..mains] == results[..f][..mains];
      }
    } else {
      assert results[..f] == results;
    }
  }

  // ---- the artifacts ----

  predicate SlugChar(c: char) { 'a' <= c <= 'z' || '0' <= c <= '9' }

  predicate BadSlugChar(c: char) { !SlugChar(c) }

  /** `re.sub("[^a-z0-9]+", "-", s)`. */
  function Dashed(s: string): string
    decreases |s|
  {
    if s == "" then ""
    else if SlugChar(s[0]) then [s[0]] + Dashed(s[1..])
    else
      DropLeftFacts(BadSlugChar, s);
      "-" + Dashed(DropLeft(BadSlugChar, s))
  }

  function Slug(name: string): string {
    OrElse(DropRight(IsDash, DropLeft(IsDash, Dashed(Lower(name)))), "command")
  }

  lemma SlugCharsListed(c: char)
    ensures SlugChar(c) <==> c in SMALL_LETTERS || c in DIGITS
  {
    SmallLettersListed(c);
    DigitsListed(c);
  }

  /** A run of other characters becomes one dash; the text in front of it is kept. */
  lemma {:induction false} DashedRun(a: string, run: string, b: string)
    requires All(SlugChar, a) && run != "" && All(BadSlugChar, run) && (b == "" || SlugChar(b[0]))
    ensures Dashed(a + run + b) == a + "-" + Dashed(b) && Dashed(a) == a
  {
    var s := a + run + b;
    if a == "" {
      assert s == run + b;
      DropLeftAll(BadSlugChar, run, b);
    } else {
      assert s[1..] == a[1..] + run + b;
      DashedRun(a[1..], run, b);
      assert a == [a[0]] + a[1..];
      assert [a[0]] + (a[1..] + "-" + Dashed(b)) == a + "-" + Dashed(b);
    }
  }

  /** The slug of a name: in small letters, with dashes for everything else but none at its ends; "command" when nothing is
      left. */
  lemma SlugExactly(name: string, a: string, r: string, b: string)
    requires Dashed(Lower(name)) == a + r + b && All(IsDash, a) && All(IsDash, b) && Bare(IsDash, r)
    ensures Slug(name) == if r == "" then "command" else r
  {
    if r == "" {
      assert a + r + b == (a + b) + "" && "" + "" == "";
      DropLeftAll(IsDash, a + b, "");
    } else {
      assert a + r + b == a + (r + b);
      DropLeftAll(IsDash, a, r + b);
      DropRightAll(IsDash, r, b);
    }
  }

  /** `{index:02d}`. */
  function Padded(n: nat): string { if n < 10 then "0" + Decimal(n) else Decimal(n) }

  datatype Kind = Stdout | Stderr | ResultFile

  function Suffix(kind: Kind): string {
    match kind
    case Stdout => ".stdout.log"
    case Stderr => ".stderr.log"
    case ResultFile => ".json"
  }

  function ArtifactName(index: nat, name: string, kind: Kind): string {
    Padded(index) + "-" + Slug(name) + Suffix(kind)
  }

  /** The three files of a command: its position in at least two digits, its slug, and the ending of the kind. */
  lemma ArtifactNames(index: nat, name: string)
    ensures var number := if index < 10 then "0" + Decimal(index) else Decimal(index);
            && ArtifactName(index, name, Stdout) == number + "-" + Slug(name) + ".stdout.log"
            && ArtifactName(index, name, Stderr) == number + "-" + Slug(name) + ".stderr.log"
            && ArtifactName(index, name, ResultFile) == number + "-" + Slug(name) + ".json"
  {
    hide Slug, Decimal;
  }

  predicate Digits(s: string) { forall i :: 0 <= i < |s| ==> '0' <= s[i] <= '9' }

  lemma PaddedFacts(n: nat)
    ensures Digits(Padded(n)) && Value(Padded(n)) == n && Padded(n) != ""
  {
    DecimalFacts(n);
    if n < 10 {
      var s := Padded(n);
      assert s == ['0', Digit(n)];
      assert s[..1] == ['0'] && s[..1][..0] == "";
      assert Value(s[..1]) == 0;
    }
  }

  predicate SlugText(s: string) { forall i :: 0 <= i < |s| ==> SlugChar(s[i]) || s[i] == '-' }

  lemma {:induction false} DashedText(s: string)
    ensures SlugText(Dashed(s))
    decreases |s|
  {
    if s != "" {
      if SlugChar(s[0]) {
        DashedText(s[1..]);
      } else {
        DropLeftFacts(BadSlugChar, s);
        DashedText(DropLeft(BadSlugChar, s));
      }
    }
  }

  lemma SlugIsText(name: string)
    ensures SlugText(Slug(name)) && Slug(name) != ""
  {
    var d := Dashed(Lower(name));
    DashedText(Lower(name));
    DropLeftFacts(IsDash, d);
    DropRightFacts(IsDash, DropLeft(IsDash, d));
  }

  /** Text up to the first dash is all there is to tell two names apart by. */
  lemma PrefixToDash(a: string, s: string, b: string, t: string)
    requires Digits(a) && Digits(b) && a + "-" + s == b + "-" + t
    ensures a == b && s == t
  {
    var x, y := a + "-" + s, b + "-" + t;
    assert x[|a|] == '-' && y[|b|] == '-';
    assert |a| == |b|;
    assert a == x[..|a|] && b == y[..|b|];
    assert s == x[|a| + 1..] && t == y[|b| + 1..];
  }

  lemma SuffixTold(s: string, k: Kind, t: string, l: Kind)
    requires SlugText(s) && SlugText(t) && s + Suffix(k) == t + Suffix(l)
    ensures s == t && k == l
  {
    var x, y := s + Suffix(k), t + Suffix(l);
    assert x[|s|] == '.' && y[|t|] == '.';
    assert |s| == |t|;
    assert s == x[..|s|] && t == y[..|t|];
    assert Suffix(k) == x[|s|..] && Suffix(l) == y[|t|..];
    assert Suffix(k)[1] == Suffix(l)[1];
    assert |Suffix(k)| > 5 && |Suffix(l)| > 5 ==> Suffix(k)[4] == Suffix(l)[4];
  }

  /** No artifact overwrites another or the manifest, whatever the commands are called: the name shows the position and
      the kind. */
  lemma ArtifactsDistinct(i: nat, a: string, k: Kind, j: nat, b: string, l: Kind)
    ensures ArtifactName(i, a, k) == ArtifactName(j, b, l) <==> i == j && Slug(a) == Slug(b) && k == l
    ensures ArtifactName(i, a, k) != "manifest.json"
  {
    hide Slug, Padded, Value;
    PaddedFacts(i);
    PaddedFacts(j);
    SlugIsText(a);
    SlugIsText(b);
    var s, t := Slug(a) + Suffix(k), Slug(b) + Suffix(l);
    assert ArtifactName(i, a, k) == Padded(i) + "-" + s;
    assert ArtifactName(j, b, l) == Padded(j) + "-" + t;
    assert ArtifactName(i, a, k)[0] == Padded(i)[0];
    if ArtifactName(i, a, k) == ArtifactName(j, b, l) {
      PrefixToDash(Padded(i), s, Padded(j), t);
      SuffixTold(Slug(a), k, Slug(b), l);
    }
  }
}
