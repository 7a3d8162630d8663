/**
 Removing lines repeated across sections: services/claude.py:_deduplicate_across_sections.
*/
module Dedup {
  import opened Text

  const PRIORITY := ["existential_data_points", "before_scenario", "business_problems", "talking_points"]

  const SHORT := 20

  function Same(s: string): string { s }

  /** str.lower, of which nothing is needed but that it keeps the empty text. */
  type Lowering = lower: string -> string | lower("") == "" witness Same

  // ---- lines ------------------------------------------------------------------

  /** content.split("\n") */
  function Split(s: string): (lines: seq<string>)
    ensures lines != []
    decreases |s|
  {
    if s == "" then [""] else
    var lines, c := Split(s[..|s| - 1]), s[|s| - 1];
    if c == '\n' then lines + [""] else lines[|lines| - 1 := lines[|lines| - 1] + [c]]
  }

  /** "\n".join(lines) */
  function Join(lines: seq<string>): string
    decreases |lines|
  {
    if lines == [] then ""
    else if |lines| == 1 then lines[0]
    else Join(lines[..|lines| - 1]) + "\n" + lines[|lines| - 1]
  }

  function Normal(lower: Lowering, line: string): string {
    lower(Strip(line))
  }

  /** The normalised lines that are long enough to count as repeats, in order. */
  function Long(lower: Lowering, lines: seq<string>): seq<string>
    decreases |lines|
  {
    if lines == [] then [] else
    var last := |lines| - 1;
    Long(lower, lines[..last]) + if |Normal(lower, lines[last])| < SHORT then [] else [Normal(lower, lines[last])]
  }

  predicate OneLine(line: string) {
    '\n' !in line
  }

  predicate OneLines(lines: seq<string>) {
    forall i :: 0 <= i < |lines| ==> OneLine(lines[i])
  }

  lemma {:induction false} SplitLines(s: string)
    ensures OneLines(Split(s))
    decreases |s|
  {
    if s != "" {
      SplitLines(s[..|s| - 1]);
    }
  }

  lemma JoinGrows(lines: seq<string>, c: char)
    requires lines != []
    ensures Join(lines[|lines| - 1 := lines[|lines| - 1] + [c]]) == Join(lines) + [c]
    ensures Join(lines + [""]) == Join(lines) + "\n"
  {
    var last := |lines| - 1;
    assert lines[last := lines[last] + [c]][..last] == lines[..last];
    assert (lines + [""])[..last + 1] == lines;
  }

  lemma {:induction false} JoinSplit(s: string)
    ensures Join(Split(s)) == s
    decreases |s|
  {
    if s != "" {
      JoinSplit(s[..|s| - 1]);
      JoinGrows(Split(s[..|s| - 1]), s[|s| - 1]);
      assert s == s[..|s| - 1] + [s[|s| - 1]];
    }
  }

  lemma {:induction false} SplitAppend(s: string, line: string)
    requires OneLine(line)
    ensures var lines := Split(s); Split(s + line) == lines[|lines| - 1 := lines[|lines| - 1] + line]
    decreases |line|
  {
    if line == "" {
      var last := |Split(s)| - 1;
      assert s + line == s && Split(s)[last] + line == Split(s)[last];
    } else {
      var front := line[..|line| - 1];
      var (c, lines) := (line[|line| - 1], Split(s));
      assert (s + line)[..|s + line| - 1] == s + front && (s + line)[|s + line| - 1] == c;
      SplitAppend(s, front);
      var x := lines[|lines| - 1];
      assert c in line;
      assert (x + front) + [c] == x + line;
    }
  }

  lemma SplitOne(line: string)
    requires OneLine(line)
    ensures Split(line) == [line]
  {
    SplitAppend("", line);
    assert "" + line == line;
  }

  lemma {:induction false} SplitJoin(lines: seq<string>)
    requires OneLines(lines) && lines != []
    ensures Split(Join(lines)) == lines
    decreases |lines|
  {
    var last := |lines| - 1;
    if last == 0 {
      SplitOne(lines[0]);
    } else {
      var front := Join(lines[..last]);
      SplitJoin(lines[..last]);
      assert (front + "\n")[..|front|] == front;
      assert Split(front + "\n") == lines[..last] + [""];
      SplitAppend(front + "\n", lines[last]);
      assert "" + lines[last] == lines[last];
    }
  }

  /** The lines of a text, with one character more in front of the first. */
  function Fronted(c: char, lines: seq<string>): seq<string>
    requires lines != []
  {
    if c == '\n' then [""] + lines else [[c] + lines[0]] + lines[1..]
  }

  /** The lines of a text, with one character more at the end of the last. */
  function Extended(lines: seq<string>, c: char): seq<string>
    requires lines != []
  {
    if c == '\n' then lines + [""] else lines[|lines| - 1 := lines[|lines| - 1] + [c]]
  }

  lemma BothEnds(c: char, lines: seq<string>, d: char)
    requires lines != []
    ensures Extended(Fronted(c, lines), d) == Fronted(c, Extended(lines, d))
  {
    if c != '\n' && d != '\n' && |lines| == 1 {
      assert ([c] + lines[0]) + [d] == [c] + (lines[0] + [d]);
    }
  }

  lemma SplitExtends(s: string, c: char)
    ensures Split(s + [c]) == Extended(Split(s), c)
  {
    assert (s + [c])[..|s|] == s;
  }

  lemma {:induction false} SplitPrepend(c: char, s: string)
    ensures Split([c] + s) == Fronted(c, Split(s))
    decreases |s|
  {
    if s == "" {
      assert [c] + s == "" + [c];
      SplitExtends("", c);
      assert "" + [c] == [c] + "";
    } else {
      var (front, last) := (s[..|s| - 1], s[|s| - 1]);
      SplitPrepend(c, front);
      assert s == front + [last] && [c] + s == ([c] + front) + [last];
      SplitExtends(front, last);
      SplitExtends([c] + front, last);
      BothEnds(c, Split(front), last);
    }
  }

  lemma {:induction false} LongAppend(lower: Lowering, a: seq<string>, b: seq<string>)
    ensures Long(lower, a + b) == Long(lower, a) + Long(lower, b)
    decreases |b|
  {
    if b == [] {
      assert a + b == a;
    } else {
      assert (a + b)[..|a + b| - 1] == a + b[..|b| - 1];
      LongAppend(lower, a, b[..|b| - 1]);
    }
  }

  lemma LongEnds(lower: Lowering, line: string, lines: seq<string>)
    ensures Long(lower, [line] + lines) == Long(lower, [line]) + Long(lower, lines)
    ensures Long(lower, [line]) == if |Normal(lower, line)| < SHORT then [] else [Normal(lower, line)]
  {
    LongAppend(lower, [line], lines);
    assert [line][..0] == [];
  }

  /** A line counts as a repeat by its lower-case text without the blanks around it, if that has 20 characters. */
  lemma {:induction false} LongMeaning(lower: Lowering, lines: seq<string>, x: string)
    ensures x in Long(lower, lines) <==> |x| >= 20 && exists line :: line in lines && x == lower(Strip(line))
    decreases |lines|
  {
    if lines != [] {
      var (front, last) := (lines[..|lines| - 1], lines[|lines| - 1]);
      LongMeaning(lower, front, x);
      assert forall line :: line in lines <==> line in front || line == last;
    }
  }

  /** The lines too short to count as repeats, as they are written. */
  function Shorts(lower: Lowering, lines: seq<string>): seq<string>
    decreases |lines|
  {
    if lines == [] then [] else
    var last := |lines| - 1;
    Shorts(lower, lines[..last]) + if |lower(Strip(lines[last]))| < 20 then [lines[last]] else []
  }

  // ---- stripping a text leaves its long lines ---------------------------------

  lemma LongSpaceFirst(lower: Lowering, s: string)
    requires s != "" && IsSpace(s[0])
    ensures Long(lower, Split(s)) == Long(lower, Split(s[1..]))
  {
    var (c, rest) := (s[0], s[1..]);
    var lines := Split(rest);
    assert s == [c] + rest;
    SplitPrepend(c, rest);
    if c == '\n' {
      LongEnds(lower, "", lines);
    } else {
      assert lines == [lines[0]] + lines[1..];
      LongEnds(lower, lines[0], lines[1..]);
      LongEnds(lower, [c] + lines[0], lines[1..]);
      StripSpaceFirst(c, lines[0]);
    }
  }

  lemma LongSpaceLast(lower: Lowering, s: string)
    requires s != "" && IsSpace(s[|s| - 1])
    ensures Long(lower, Split(s)) == Long(lower, Split(s[..|s| - 1]))
  {
    var (front, c) := (s[..|s| - 1], s[|s| - 1]);
    var lines := Split(front);
    var last := |lines| - 1;
    if c == '\n' {
      LongAppend(lower, lines, [""]);
      LongEnds(lower, "", []);
    } else {
      var longer := lines[last := lines[last] + [c]];
      assert longer[..last] == lines[..last];
      StripSpaceLast(lines[last], c);
    }
  }

  lemma {:induction false} LongLStrip(lower: Lowering, s: string)
    ensures Long(lower, Split(LStrip(s))) == Long(lower, Split(s))
    decreases |s|
  {
    if s != "" && IsSpace(s[0]) {
      LongLStrip(lower, s[1..]);
      LongSpaceFirst(lower, s);
    }
  }

  lemma {:induction false} LongRStrip(lower: Lowering, s: string)
    ensures Long(lower, Split(RStrip(s))) == Long(lower, Split(s))
    decreases |s|
  {
    if s != "" && IsSpace(s[|s| - 1]) {
      LongRStrip(lower, s[..|s| - 1]);
      LongSpaceLast(lower, s);
    }
  }

  lemma LongStrip(lower: Lowering, s: string)
    ensures Long(lower, Split(Strip(s))) == Long(lower, Split(s))
  {
    LongLStrip(lower, s);
    LongRStrip(lower, LStrip(s));
  }

  // ---- one section ------------------------------------------------------------

  datatype Pass = Pass(kept: seq<string>, seen: set<string>)

  /** Keep the short lines and the first copy of each long line not seen before. */
  function Scan(lower: Lowering, lines: seq<string>, seen: set<string>): Pass
    decreases |lines|
  {
    if lines == [] then Pass([], seen) else
    var (before, line) := (Scan(lower, lines[..|lines| - 1], seen), lines[|lines| - 1]);
    if |Normal(lower, line)| < SHORT then Pass(before.kept + [line], before.seen)
    else if Normal(lower, line) in before.seen then before
    else Pass(before.kept + [line], before.seen + {Normal(lower, line)})
  }

  predicate Distinct(s: seq<string>) {
    forall i, j :: 0 <= i < j < |s| ==> s[i] != s[j]
  }

  lemma LongLast(lower: Lowering, lines: seq<string>, line: string)
    ensures Long(lower, lines + [line])
         == Long(lower, lines) + if |Normal(lower, line)| < SHORT then [] else [Normal(lower, line)]
  {
    assert (lines + [line])[..|lines|] == lines;
  }

  /** After a section exactly its long lines have been seen too. */
  lemma {:induction false} ScanSees(lower: Lowering, lines: seq<string>, seen: set<string>, x: string)
    ensures x in Scan(lower, lines, seen).seen <==> x in seen || x in Long(lower, lines)
    decreases |lines|
  {
    if lines != [] {
      ScanSees(lower, lines[..|lines| - 1], seen, x);
    }
  }

  /** What is kept is each long line once, and only those not seen before. */
  lemma {:induction false} ScanKeeps(lower: Lowering, lines: seq<string>, seen: set<string>, x: string)
    ensures x in Long(lower, Scan(lower, lines, seen).kept) <==> x in Long(lower, lines) && x !in seen
    ensures Distinct(Long(lower, Scan(lower, lines, seen).kept))
    decreases |lines|
  {
    if lines != [] {
      var (front, line) := (lines[..|lines| - 1], lines[|lines| - 1]);
      var before := Scan(lower, front, seen);
      ScanKeeps(lower, front, seen, x);
      ScanKeeps(lower, front, seen, Normal(lower, line));
      ScanSees(lower, front, seen, Normal(lower, line));
      LongLast(lower, before.kept, line);
    }
  }

  lemma ShortsLast(lower: Lowering, lines: seq<string>, line: string)
    ensures Shorts(lower, lines + [line])
         == if |lower(Strip(line))| < 20 then Shorts(lower, lines) + [line] else Shorts(lower, lines)
  {
    assert (lines + [line])[..|lines|] == lines;
  }

  /** Every short line is kept, in order. */
  lemma {:induction false} ScanKeepsShort(lower: Lowering, lines: seq<string>, seen: set<string>)
    ensures Shorts(lower, Scan(lower, lines, seen).kept) == Shorts(lower, lines)
    decreases |lines|
  {
    if lines != [] {
      var (front, line) := (lines[..|lines| - 1], lines[|lines| - 1]);
      assert lines == front + [line];
      ScanKeepsShort(lower, front, seen);
      ShortsLast(lower, front, line);
      ShortsLast(lower, Scan(lower, front, seen).kept, line);
    }
  }

  /** What is kept is lines of the section as they are written. */
  lemma {:induction false} ScanKeepsLines(lower: Lowering, lines: seq<string>, seen: set<string>, line: string)
    ensures line in Scan(lower, lines, seen).kept ==> line in lines
    decreases |lines|
  {
    if lines != [] {
      ScanKeepsLines(lower, lines[..|lines| - 1], seen, line);
    }
  }

  lemma {:induction false} ScanOneLines(lower: Lowering, lines: seq<string>, seen: set<string>)
    requires OneLines(lines)
    ensures OneLines(Scan(lower, lines, seen).kept)
    decreases |lines|
  {
    if lines != [] {
      ScanOneLines(lower, lines[..|lines| - 1], seen);
    }
  }

  /** Lines that repeat nothing are all kept. */
  lemma {:induction false} ScanAll(lower: Lowering, lines: seq<string>, seen: set<string>)
    requires Distinct(Long(lower, lines)) && forall x :: x in Long(lower, lines) ==> x !in seen
    ensures Scan(lower, lines, seen).kept == lines
    decreases |lines|
  {
    if lines != [] {
      var (front, line) := (lines[..|lines| - 1], lines[|lines| - 1]);
      assert lines == front + [line];
      LongLast(lower, front, line);
      var n := |Long(lower, front)|;
      assert forall k :: 0 <= k < n ==> Long(lower, lines)[k] == Long(lower, front)[k];
      ScanAll(lower, front, seen);
      ScanSees(lower, front, seen, Normal(lower, line));
      if |Normal(lower, line)| >= SHORT {
        assert Long(lower, lines)[n] == Normal(lower, line) && Normal(lower, line) !in Long(lower, front);
      }
    }
  }

  /** The section as it is written back. */
  function Rewritten(lower: Lowering, content: string, seen: set<string>): string {
    Strip(Join(Scan(lower, Split(content), seen).kept))
  }

  /** Joining and stripping do not disturb what was kept. */
  lemma LongRewritten(lower: Lowering, content: string, seen: set<string>)
    ensures Long(lower, Split(Rewritten(lower, content, seen))) == Long(lower, Scan(lower, Split(content), seen).kept)
  {
    var kept := Scan(lower, Split(content), seen).kept;
    SplitLines(content);
    ScanOneLines(lower, Split(content), seen);
    LongStrip(lower, Join(kept));
    if kept == [] {
      LongEnds(lower, "", []);
    } else {
      SplitJoin(kept);
    }
  }

  // ---- all sections -----------------------------------------------------------

  datatype State = State(result: map<string, string>, seen: set<string>)

  function Step(lower: Lowering, st: State, key: string): State {
    if key !in st.result || st.result[key] == "" then st else
    State(st.result[key := Rewritten(lower, st.result[key], st.seen)], Scan(lower, Split(st.result[key]), st.seen).seen)
  }

  /** The sections after the first n of the priority list. */
  function After(lower: Lowering, sections: map<string, string>, n: nat): State
    requires n <= |PRIORITY|
  {
    if n == 0 then State(sections, {}) else Step(lower, After(lower, sections, n - 1), PRIORITY[n - 1])
  }

  function Deduplicated(lower: Lowering, sections: map<string, string>): map<string, string> {
    After(lower, sections, |PRIORITY|).result
  }

  /** The inner loop: the lines of one section that are kept, and the long ones seen by then. */
  method ScanLines(lower: Lowering, lines: seq<string>, before: set<string>)
    returns (kept: seq<string>, seen: set<string>)
    ensures Pass(kept, seen) == Scan(lower, lines, before)
  {
    kept, seen := [], before;
    for i := 0 to |lines|
      invariant Pass(kept, seen) == Scan(lower, lines[..i], before)
    {
      assert lines[..i + 1][..i] == lines[..i];
      var normalized := Normal(lower, lines[i]);
      if |normalized| < SHORT {
        kept := kept + [lines[i]];
      } else if normalized !in seen {
        seen := seen + {normalized};
        kept := kept + [lines[i]];
      }
    }
    assert lines[..|lines|] == lines;
  }

  method DeduplicateAcrossSections(lower: Lowering, sections: map<string, string>) returns (result: map<string, string>)
    ensures result == Deduplicated(lower, sections)
  {
    var seen: set<string> := {};
    result := sections;
    for n := 0 to |PRIORITY|
      invariant State(result, seen) == After(lower, sections, n)
    {
      var key := PRIORITY[n];
      var content := if key in result then result[key] else "";
      if content != "" {
        var kept, extended := ScanLines(lower, Split(content), seen);
        result, seen := result[key := Strip(Join(kept))], extended;
      }
    }
  }

  /** The long lines of a section; a missing section has none. */
  function LongOf(lower: Lowering, sections: map<string, string>, key: string): seq<string> {
    if key in sections then Long(lower, Split(sections[key])) else []
  }

  lemma PriorityDistinct(i: nat, j: nat)
    requires i < |PRIORITY| && j < |PRIORITY| && i != j
    ensures PRIORITY[i] != PRIORITY[j]
  {
  }

  /** The k-th section is untouched before its turn and after it. */
  lemma {:induction false} OnlyItsTurn(lower: Lowering, sections: map<string, string>, n: nat, key: string)
    requires n <= |PRIORITY| && forall j :: 0 <= j < n ==> PRIORITY[j] != key
    ensures var r := After(lower, sections, n).result;
            (key in r <==> key in sections) && (key in sections ==> r[key] == sections[key])
  {
    if n > 0 {
      OnlyItsTurn(lower, sections, n - 1, key);
    }
  }

  lemma {:induction false} UntouchedLater(lower: Lowering, sections: map<string, string>, m: nat, n: nat, key: string)
    requires m <= n <= |PRIORITY| && forall j :: m <= j < n ==> PRIORITY[j] != key
    ensures var (a, b) := (After(lower, sections, m).result, After(lower, sections, n).result);
            (key in a <==> key in b) && (key in a ==> a[key] == b[key])
    decreases n
  {
    if m < n {
      UntouchedLater(lower, sections, m, n - 1, key);
    }
  }

  predicate InEarlier(lower: Lowering, sections: map<string, string>, n: nat, x: string)
    requires n <= |PRIORITY|
  {
    exists j :: 0 <= j < n && x in LongOf(lower, sections, PRIORITY[j])
  }

  lemma NothingLong(lower: Lowering)
    ensures Long(lower, Split("")) == []
  {
    LongEnds(lower, "", []);
  }

  lemma EarlierStep(lower: Lowering, sections: map<string, string>, n: nat, x: string)
    requires 0 < n <= |PRIORITY|
    ensures InEarlier(lower, sections, n, x)
            <==> InEarlier(lower, sections, n - 1, x) || x in LongOf(lower, sections, PRIORITY[n - 1])
  {
  }

  lemma StepSees(lower: Lowering, st: State, key: string, x: string)
    ensures x in Step(lower, st, key).seen <==> x in st.seen || x in LongOf(lower, st.result, key)
  {
    NothingLong(lower);
    if key in st.result && st.result[key] != "" {
      ScanSees(lower, Split(st.result[key]), st.seen, x);
    }
  }

  lemma NotYet(n: nat)
    requires n < |PRIORITY|
    ensures forall j :: 0 <= j < n ==> PRIORITY[j] != PRIORITY[n]
  {
    forall j | 0 <= j < n
      ensures PRIORITY[j] != PRIORITY[n]
    {
      PriorityDistinct(j, n);
    }
  }

  /** What has been seen is what the sections so far held. */
  lemma {:induction false} SeenSoFar(lower: Lowering, sections: map<string, string>, n: nat, x: string)
    requires n <= |PRIORITY|
    ensures x in After(lower, sections, n).seen <==> InEarlier(lower, sections, n, x)
  {
    if n > 0 {
      var m := n - 1;
      SeenSoFar(lower, sections, m, x);
      NotYet(m);
      OnlyItsTurn(lower, sections, m, PRIORITY[m]);
      StepSees(lower, After(lower, sections, m), PRIORITY[m], x);
      EarlierStep(lower, sections, n, x);
    }
  }

  /** A section after its turn. */
  lemma SectionAfter(lower: Lowering, sections: map<string, string>, i: nat)
    requires i < |PRIORITY|
    ensures var (key, r) := (PRIORITY[i], Deduplicated(lower, sections));
            && (key in r <==> key in sections)
            && (key in sections ==>
                  r[key] == if sections[key] == "" then ""
                            else Rewritten(lower, sections[key], After(lower, sections, i).seen))
  {
    var key := PRIORITY[i];
    forall j | 0 <= j < |PRIORITY| && j != i
      ensures PRIORITY[j] != key
    {
      PriorityDistinct(i, j);
    }
    OnlyItsTurn(lower, sections, i, key);
    UntouchedLater(lower, sections, i + 1, |PRIORITY|, key);
  }

  /** A long line survives in exactly the first priority section that had it, and there once. */
  lemma FirstSectionWins(lower: Lowering, sections: map<string, string>, i: nat, x: string)
    requires i < |PRIORITY|
    ensures x in LongOf(lower, Deduplicated(lower, sections), PRIORITY[i])
            <==> x in LongOf(lower, sections, PRIORITY[i]) && !InEarlier(lower, sections, i, x)
    ensures Distinct(LongOf(lower, Deduplicated(lower, sections), PRIORITY[i]))
  {
    var key := PRIORITY[i];
    SectionAfter(lower, sections, i);
    NothingLong(lower);
    if key in sections && sections[key] != "" {
      var seen := After(lower, sections, i).seen;
      LongRewritten(lower, sections[key], seen);
      ScanKeeps(lower, Split(sections[key]), seen, x);
      SeenSoFar(lower, sections, i, x);
    }
  }

  /** In the order of the four sections: which of them keeps a long line. */
  lemma FirstOfFour(lower: Lowering, sections: map<string, string>, x: string)
    ensures var result := Deduplicated(lower, sections);
            var points := x in LongOf(lower, sections, "existential_data_points");
            var scenario := x in LongOf(lower, sections, "before_scenario");
            var problems := x in LongOf(lower, sections, "business_problems");
            var talking := x in LongOf(lower, sections, "talking_points");
            && (x in LongOf(lower, result, "existential_data_points") <==> points)
            && (x in LongOf(lower, result, "before_scenario") <==> scenario && !points)
            && (x in LongOf(lower, result, "business_problems") <==> problems && !points && !scenario)
            && (x in LongOf(lower, result, "talking_points") <==> talking && !points && !scenario && !problems)
  {
    FirstSectionWins(lower, sections, 0, x);
    FirstSectionWins(lower, sections, 1, x);
    FirstSectionWins(lower, sections, 2, x);
    FirstSectionWins(lower, sections, 3, x);
    EarlierStep(lower, sections, 1, x);
    EarlierStep(lower, sections, 2, x);
    EarlierStep(lower, sections, 3, x);
  }

  /** A section is written back as the short lines it had, in order, among its long lines that are left. */
  lemma SectionKeeps(lower: Lowering, sections: map<string, string>, i: nat) returns (kept: seq<string>)
    requires i < |PRIORITY| && PRIORITY[i] in sections && sections[PRIORITY[i]] != ""
    ensures var (key, result) := (PRIORITY[i], Deduplicated(lower, sections));
            && key in result && result[key] == Strip(Join(kept))
            && Shorts(lower, kept) == Shorts(lower, Split(sections[key]))
            && (forall line :: line in kept ==> line in Split(sections[key]))
            && Long(lower, kept) == LongOf(lower, result, key)
  {
    var (key, seen) := (PRIORITY[i], After(lower, sections, i).seen);
    SectionAfter(lower, sections, i);
    kept := Scan(lower, Split(sections[key]), seen).kept;
    ScanKeepsShort(lower, Split(sections[key]), seen);
    forall line | line in kept
      ensures line in Split(sections[key])
    {
      ScanKeepsLines(lower, Split(sections[key]), seen, line);
    }
    LongRewritten(lower, sections[key], seen);
  }

  /** Afterwards no long line is in two of the sections. */
  lemma NoRepeats(lower: Lowering, sections: map<string, string>, i: nat, j: nat, x: string)
    requires i < j < |PRIORITY|
    requires x in LongOf(lower, Deduplicated(lower, sections), PRIORITY[i])
    ensures x !in LongOf(lower, Deduplicated(lower, sections), PRIORITY[j])
  {
    FirstSectionWins(lower, sections, i, x);
    FirstSectionWins(lower, sections, j, x);
  }

  /** The long lines of the sections together are the same as before. */
  lemma NothingLost(lower: Lowering, sections: map<string, string>, x: string)
    ensures InEarlier(lower, sections, |PRIORITY|, x)
            <==> InEarlier(lower, Deduplicated(lower, sections), |PRIORITY|, x)
  {
    forall i | 0 <= i < |PRIORITY|
      ensures x in LongOf(lower, Deduplicated(lower, sections), PRIORITY[i])
              <==> x in LongOf(lower, sections, PRIORITY[i]) && !InEarlier(lower, sections, i, x)
    {
      FirstSectionWins(lower, sections, i, x);
    }
    if InEarlier(lower, sections, |PRIORITY|, x) {
      var i := FirstWith(lower, sections, |PRIORITY|, x);
      assert x in LongOf(lower, Deduplicated(lower, sections), PRIORITY[i]);
    }
  }

  lemma {:induction false} FirstWith(lower: Lowering, sections: map<string, string>, n: nat, x: string) returns (i: nat)
    requires n <= |PRIORITY| && InEarlier(lower, sections, n, x)
    ensures i < n && x in LongOf(lower, sections, PRIORITY[i]) && !InEarlier(lower, sections, i, x)
  {
    if InEarlier(lower, sections, n - 1, x) {
      i := FirstWith(lower, sections, n - 1, x);
    } else {
      i := n - 1;
    }
  }

  /** Sections outside the priority list are left alone. */
  lemma OthersUntouched(lower: Lowering, sections: map<string, string>, key: string)
    requires key !in PRIORITY
    ensures key in Deduplicated(lower, sections) <==> key in sections
    ensures key in sections ==> Deduplicated(lower, sections)[key] == sections[key]
  {
    OnlyItsTurn(lower, sections, |PRIORITY|, key);
  }

  lemma StepChangesNothing(lower: Lowering, sections: map<string, string>, i: nat)
    requires i < |PRIORITY|
    requires var once := Deduplicated(lower, sections); After(lower, once, i).result == once
    ensures var once := Deduplicated(lower, sections); After(lower, once, i + 1).result == once
  {
    var (once, key) := (Deduplicated(lower, sections), PRIORITY[i]);
    if key in once && once[key] != "" {
      var (content, seen) := (once[key], After(lower, once, i).seen);
      SectionAfter(lower, sections, i);
      FirstSectionWins(lower, sections, i, "");
      forall x | x in Long(lower, Split(content))
        ensures x !in seen
      {
        SeenSoFar(lower, once, i, x);
        if InEarlier(lower, once, i, x) {
          var j :| 0 <= j < i && x in LongOf(lower, once, PRIORITY[j]);
          NoRepeats(lower, sections, j, i, x);
        }
      }
      ScanAll(lower, Split(content), seen);
      JoinSplit(content);
      StripTwice(Join(Scan(lower, Split(sections[key]), After(lower, sections, i).seen).kept));
    }
  }

  lemma {:induction false} SecondPass(lower: Lowering, sections: map<string, string>, n: nat)
    requires n <= |PRIORITY|
    ensures var once := Deduplicated(lower, sections); After(lower, once, n).result == once
  {
    if n > 0 {
      SecondPass(lower, sections, n - 1);
      StepChangesNothing(lower, sections, n - 1);
    }
  }

  /** A second pass changes nothing. */
  lemma Idempotent(lower: Lowering, sections: map<string, string>)
    ensures Deduplicated(lower, Deduplicated(lower, sections)) == Deduplicated(lower, sections)
  {
    SecondPass(lower, sections, |PRIORITY|);
  }
}
