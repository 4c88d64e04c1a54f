/** Splitting a finished reply into the pieces it is streamed in. */
module ReplyChunks {
  import opened Text

  function Joined(parts: seq<string>): string {
    if parts == [] then "" else Joined(parts[..|parts| - 1]) + parts[|parts| - 1]
  }

  lemma {:induction false} JoinedAppend(a: seq<string>, b: seq<string>)
    ensures Joined(a + b) == Joined(a) + Joined(b)
  {
    if b == [] {
      assert a + b == a;
    } else {
      JoinedAppend(a, b[..|b| - 1]);
      assert (a + b)[..|a + b| - 1] == a + b[..|b| - 1];
    }
  }

  lemma JoinedPush(a: seq<string>, t: string)
    ensures Joined(a + [t]) == Joined(a) + t
  {
    assert (a + [t])[..|a|] == a;
  }

  /** Does a break fall before position `k`: is one of its neighbours blank and the other not? */
  predicate BreakAt(s: string, k: nat) {
    0 < k < |s| && IsSpace(s[k - 1]) != IsSpace(s[k])
  }

  /** The maximal runs of blank and of non-blank characters, in order. */
  function BlankRuns(s: string): seq<string> {
    if s == "" then [] else
      var runs, c := BlankRuns(s[..|s| - 1]), s[|s| - 1];
      if |s| == 1 || BreakAt(s, |s| - 1) || runs == [] then runs + [[c]]
      else runs[..|runs| - 1] + [runs[|runs| - 1] + [c]]
  }

  predicate Uniform(s: string) { forall k :: 0 < k < |s| ==> !BreakAt(s, k) }

  /** Two pieces with a break between them. */
  predicate BreakBetween(a: string, b: string) {
    a != "" && b != "" && IsSpace(a[|a| - 1]) != IsSpace(b[0])
  }

  predicate BreaksBetween(parts: seq<string>) {
    forall i :: 0 <= i < |parts| - 1 ==> BreakBetween(parts[i], parts[i + 1])
  }

  predicate AreRuns(runs: seq<string>) {
    (forall i :: 0 <= i < |runs| ==> runs[i] != "" && Uniform(runs[i])) && BreaksBetween(runs)
  }

  lemma ExtendUniform(run: string, c: char)
    requires run != "" && Uniform(run) && IsSpace(run[|run| - 1]) == IsSpace(c)
    ensures Uniform(run + [c])
  {
    hide IsSpace;
    var s := run + [c];
    forall k | 0 < k < |s| ensures !BreakAt(s, k) {
      assert k < |run| ==> !BreakAt(run, k);
    }
  }

  /** The runs of a text, from those of the text without its last character. */
  lemma LongerRun(runs: seq<string>, s: string)
    requires AreRuns(runs) && runs != [] && |s| > 1 && Joined(runs) == s[..|s| - 1] && !BreakAt(s, |s| - 1)
    ensures var longer := runs[..|runs| - 1] + [runs[|runs| - 1] + [s[|s| - 1]]];
            Joined(longer) == s && AreRuns(longer)
  {
    hide IsSpace;
    var n, m := |s| - 1, |runs| - 1;
    var before, last, c := runs[..m], runs[m], s[n];
    JoinedPush(before, last + [c]);
    assert s == s[..n] + [c] && s[..n] == Joined(before) + last;
    assert s == Joined(before) + (last + [c]);
    assert last[|last| - 1] == s[..n][n - 1];
    ExtendUniform(last, c);
    hide Joined, BreakAt, Uniform;
    assert before + [last] == runs;
    ReplaceLast(before, last, last + [c]);
  }

  lemma ReplaceLast(before: seq<string>, last: string, longer: string)
    requires AreRuns(before + [last]) && last != "" && longer != "" && Uniform(longer) && longer[0] == last[0]
    ensures AreRuns(before + [longer])
  {
    hide IsSpace, Uniform;
    var a, b := before + [last], before + [longer];
    forall i | 0 <= i < |b| - 1 ensures BreakBetween(b[i], b[i + 1]) {
      assert BreakBetween(a[i], a[i + 1]);
    }
    forall i | 0 <= i < |b| ensures b[i] != "" && Uniform(b[i]) {
      assert a[i] != "" && Uniform(a[i]);
    }
  }

  lemma NewRun(runs: seq<string>, s: string)
    requires AreRuns(runs) && s != "" && Joined(runs) == s[..|s| - 1] && (runs == [] || BreakAt(s, |s| - 1))
    ensures Joined(runs + [[s[|s| - 1]]]) == s && AreRuns(runs + [[s[|s| - 1]]])
  {
    hide IsSpace;
    var c := s[|s| - 1];
    JoinedPush(runs, [c]);
    assert s == s[..|s| - 1] + [c];
    if runs != [] {
      var last := runs[|runs| - 1];
      assert last[|last| - 1] == s[|s| - 2];
      assert BreakBetween(last, [c]);
    }
  }

  lemma {:induction false} BlankRunsFacts(s: string)
    ensures Joined(BlankRuns(s)) == s
    ensures AreRuns(BlankRuns(s))
  {
    hide IsSpace;
    if s != "" {
      var n := |s| - 1;
      var runs := BlankRuns(s[..n]);
      BlankRunsFacts(s[..n]);
      hide AreRuns, BreakAt;
      if n == 0 || runs == [] || BreakAt(s, n) {
        if n == 0 {
          assert s[..n] == "";
        }
        NewRun(runs, s);
      } else {
        LongerRun(runs, s);
      }
    }
  }

  /** Long enough to be sent, or at the end of a line. */
  predicate Full(s: string) { |s| >= 16 || '\n' in s }

  datatype Merging = Merging(merged: seq<string>, current: string)

  function Merge(runs: seq<string>): Merging {
    if runs == [] then Merging([], "") else
      var m := Merge(runs[..|runs| - 1]);
      var current := m.current + runs[|runs| - 1];
      if Full(current) then Merging(m.merged + [current], "") else Merging(m.merged, current)
  }

  function Chunks(reply: string): seq<string> {
    var m := Merge(BlankRuns(reply));
    var merged := if m.current != "" then m.merged + [m.current] else m.merged;
    if merged == [] then [reply] else merged
  }

  method SplitReply(reply: string) returns (chunks: seq<string>)
    ensures chunks == Chunks(reply)
  {
    var runs := BlankRuns(reply);
    var merged, current := [], "";
    for i := 0 to |runs|
      invariant Merge(runs[..i]) == Merging(merged, current)
    {
      assert runs[..i + 1][..i] == runs[..i];
      current := current + runs[i];
      if |current| >= 16 || '\n' in current {
        merged := merged + [current];
        current := "";
      }
    }
    assert runs[..|runs|] == runs;
    if current != "" {
      merged := merged + [current];
    }
    chunks := if merged == [] then [reply] else merged;
  }

  /** A chunk as the merge makes them: nothing that ends at an earlier break inside it was enough to be sent. */
  predicate Earliest(chunk: string) {
    chunk != "" && forall k :: 0 < k < |chunk| && BreakAt(chunk, k) ==> !Full(chunk[..k])
  }

  /** Pieces cut at breaks, each at the first place where it was enough to be sent; only the last may be shorter. */
  predicate WellCut(parts: seq<string>) {
    && BreaksBetween(parts)
    && (forall i :: 0 <= i < |parts| ==> Earliest(parts[i]))
    && (forall i :: 0 <= i < |parts| - 1 ==> Full(parts[i]))
  }

  /** What holds of a merge in progress after the given runs. */
  predicate Merges(m: Merging, runs: seq<string>) {
    && Joined(m.merged) + m.current == Joined(runs)
    && (forall i :: 0 <= i < |m.merged| ==> Earliest(m.merged[i]) && Full(m.merged[i]))
    && BreaksBetween(m.merged)
    && !Full(m.current)
    && (m.merged != [] && m.current != "" ==> BreakBetween(m.merged[|m.merged| - 1], m.current))
    && (runs != [] && m.current == "" ==>
          m.merged != [] && EndsAlike(m.merged[|m.merged| - 1], runs[|runs| - 1]))
    && (runs != [] && m.current != "" ==> EndsAlike(m.current, runs[|runs| - 1]))
    && (runs == [] ==> m == Merging([], ""))
  }

  predicate EndsAlike(a: string, b: string) { a != "" && b != "" && a[|a| - 1] == b[|b| - 1] }

  /** Adding one run to a piece that is not enough yet. */
  lemma ExtendEarliest(current: string, run: string)
    requires !Full(current) && run != "" && Uniform(run)
    ensures Earliest(current + run)
  {
    hide IsSpace;
    var s := current + run;
    forall k | 0 < k < |s| && BreakAt(s, k) ensures !Full(s[..k]) {
      var j := k - |current|;
      assert j > 0 ==> s[k] == run[j] && s[k - 1] == run[j - 1] && !BreakAt(run, j);
      assert s[..k] == current[..k];
    }
  }

  lemma MergeStep(before: seq<string>, run: string, m: Merging)
    requires Merges(m, before) && AreRuns(before + [run])
    ensures var current := m.current + run;
            Merges(if Full(current) then Merging(m.merged + [current], "") else Merging(m.merged, current), before + [run])
  {
    hide IsSpace, Full, Joined, Earliest;
    var runs, n := before + [run], |before|;
    var current := m.current + run;
    assert runs[n] == run;
    ExtendEarliest(m.current, run);
    if n > 0 {
      assert BreakBetween(runs[n - 1], runs[n]);
    }
    if m.merged != [] {
      assert BreakBetween(m.merged[|m.merged| - 1], current);
    }
    JoinedPush(before, run);
    JoinedPush(m.merged, current);
    assert Joined(m.merged) + current == Joined(before) + run;
    EmptyNotFull();
  }

  lemma EmptyNotFull()
    ensures !Full("")
  {
  }

  lemma {:induction false} MergeFacts(runs: seq<string>)
    requires AreRuns(runs)
    ensures Merges(Merge(runs), runs)
  {
    hide IsSpace;
    if runs != [] {
      var n := |runs| - 1;
      assert AreRuns(runs[..n]);
      MergeFacts(runs[..n]);
      assert runs[..n] + [runs[n]] == runs;
      hide AreRuns, Merges, Full;
      MergeStep(runs[..n], runs[n], Merge(runs[..n]));
    }
  }

  /** The chunks of a reply: joined they are the reply, none cuts a word or a blank run, and each is sent at the first
      break where it is long enough or holds a line end, so only the last may be shorter. */
  lemma ChunksFacts(reply: string)
    ensures Joined(Chunks(reply)) == reply
    ensures reply == "" ==> Chunks(reply) == [""]
    ensures reply != "" ==> Chunks(reply) != [] && WellCut(Chunks(reply))
  {
    hide IsSpace, Full, BreakBetween, BlankRuns, Merge, AreRuns, Earliest;
    var runs := BlankRuns(reply);
    BlankRunsFacts(reply);
    MergeFacts(runs);
    var m := Merge(runs);
    EachEarliest(m, runs);
    JoinedPush(m.merged, m.current);
    JoinedPush([], reply);
    assert [] + [reply] == [reply];
    if m.current != "" {
      CurrentEarliest(runs);
    } else if m.merged == [] {
      assert Joined(m.merged) == "";
    }
    NoRuns(reply);
  }

  lemma EachEarliest(m: Merging, runs: seq<string>)
    requires Merges(m, runs)
    ensures forall i :: 0 <= i < |m.merged| ==> Earliest(m.merged[i]) && Full(m.merged[i])
  {
  }

  lemma NoRuns(s: string)
    ensures s == "" ==> BlankRuns(s) == [] && Merge(BlankRuns(s)) == Merging([], "")
  {
  }

  lemma CurrentEarliest(runs: seq<string>)
    requires AreRuns(runs) && Merge(runs).current != ""
    ensures Earliest(Merge(runs).current)
  {
    var n := |runs| - 1;
    assert AreRuns(runs[..n]);
    MergeFacts(runs[..n]);
    ExtendEarliest(Merge(runs[..n]).current, runs[n]);
  }

  /** Any way of cutting the reply with those properties is this one. */
  lemma {:induction false} ChunksUnique(a: seq<string>, b: seq<string>)
    requires Joined(a) == Joined(b) && WellCut(a) && WellCut(b)
    ensures a == b
    decreases |a|
  {
    if a == [] || b == [] {
      EmptyJoin(a);
      EmptyJoin(b);
    } else {
      SameHead(a, b);
      JoinedHead(a);
      JoinedHead(b);
      assert Joined(a[1..]) == Joined(a)[|a[0]|..] && Joined(b[1..]) == Joined(b)[|b[0]|..];
      WellCutTail(a);
      WellCutTail(b);
      ChunksUnique(a[1..], b[1..]);
      assert a == [a[0]] + a[1..] && b == [b[0]] + b[1..];
    }
  }

  lemma WellCutTail(a: seq<string>)
    requires WellCut(a) && a != []
    ensures WellCut(a[1..])
  {
    forall i | 0 <= i < |a[1..]| - 1 ensures BreakBetween(a[1..][i], a[1..][i + 1]) {
      assert BreakBetween(a[i + 1], a[i + 2]);
    }
  }

  lemma JoinedHead(a: seq<string>)
    requires a != []
    ensures Joined(a) == a[0] + Joined(a[1..])
  {
    assert a == [a[0]] + a[1..];
    JoinedAppend([a[0]], a[1..]);
    JoinedPush([], a[0]);
    assert [] + [a[0]] == [a[0]];
  }

  lemma EmptyJoin(a: seq<string>)
    requires WellCut(a)
    ensures Joined(a) == "" <==> a == []
  {
    if a != [] {
      JoinedHead(a);
    }
  }

  lemma SameHead(a: seq<string>, b: seq<string>)
    requires a != [] && b != [] && Joined(a) == Joined(b) && WellCut(a) && WellCut(b)
    ensures a[0] == b[0]
  {
    if |a[0]| < |b[0]| {
      Shorter(a, b);
      assert false;
    } else if |b[0]| < |a[0]| {
      Shorter(b, a);
      assert false;
    } else {
      JoinedHead(a);
      JoinedHead(b);
      assert a[0] == Joined(a)[..|a[0]|] && b[0] == Joined(b)[..|b[0]|];
    }
  }

  lemma Overlap(p: string, q: string, r: string, t: string)
    requires p + q == r + t && |p| < |r|
    ensures q != "" && r[..|p|] == p && r[|p|] == q[0]
  {
    var s := p + q;
    assert p == s[..|p|] && r == s[..|r|];
    assert s[|p|] == r[|p|];
  }

  /** The end of a shorter first piece is a break inside a longer one. */
  lemma Shorter(a: seq<string>, b: seq<string>)
    requires a != [] && b != [] && Joined(a) == Joined(b) && BreaksBetween(a) && |a[0]| < |b[0]|
    ensures |a| > 1 && BreakAt(b[0], |a[0]|) && b[0][..|a[0]|] == a[0]
  {
    JoinedHead(a);
    JoinedHead(b);
    Overlap(a[0], Joined(a[1..]), b[0], Joined(b[1..]));
    assert a[1..] != [];
    JoinedHead(a[1..]);
    hide IsSpace, Joined;
    assert BreakBetween(a[0], a[1]);
    var p, k := a[0], |a[0]|;
    assert b[0][k - 1] == b[0][..k][k - 1];
  }
}
