/** Python's str.strip and the characters it removes. */
module Text {
  import opened Common

  predicate IsSpace(c: char) {
    var n := c as int;
    || 0x09 <= n <= 0x0D || 0x1C <= n <= 0x20 || n == 0x85 || n == 0xA0 || n == 0x1680 || 0x2000 <= n <= 0x200A
    || n == 0x2028 || n == 0x2029 || n == 0x202F || n == 0x205F || n == 0x3000
  }

  predicate Blank(s: string) {
    forall i :: 0 <= i < |s| ==> IsSpace(s[i])
  }

  function LStrip(s: string): (r: string)
    ensures r != "" ==> !IsSpace(r[0])
    decreases |s|
  {
    if s != "" && IsSpace(s[0]) then LStrip(s[1..]) else s
  }

  function RStrip(s: string): (r: string)
    ensures r != "" ==> !IsSpace(r[|r| - 1])
    decreases |s|
  {
    if s != "" && IsSpace(s[|s| - 1]) then RStrip(s[..|s| - 1]) else s
  }

  function Strip(s: string): string {
    RStrip(LStrip(s))
  }

  /** The 29 characters that str.strip removes. */
  lemma SpacesAre(c: char)
    ensures IsSpace(c) <==>
            c as int in {9, 10, 11, 12, 13, 28, 29, 30, 31, 32, 0x85, 0xA0, 0x1680, 0x2000, 0x2001, 0x2002, 0x2003,
                         0x2004, 0x2005, 0x2006, 0x2007, 0x2008, 0x2009, 0x200A, 0x2028, 0x2029, 0x202F, 0x205F, 0x3000}
  {
  }

  /** What strip leaves begins and ends with a visible character, and only blanks were around it. */
  lemma {:induction false} StripMeaning(s: string) returns (before: string, after: string)
    ensures s == before + Strip(s) + after && Blank(before) && Blank(after)
    ensures Strip(s) != "" ==> !IsSpace(Strip(s)[0]) && !IsSpace(Strip(s)[|Strip(s)| - 1])
  {
    before := LStripped(s);
    after := RStripped(LStrip(s));
    if LStrip(s) != "" {
      RStripFirst(LStrip(s));
    }
    assert before + (Strip(s) + after) == before + Strip(s) + after;
  }

  lemma {:induction false} LStripped(s: string) returns (before: string)
    ensures s == before + LStrip(s) && Blank(before)
    decreases |s|
  {
    before := "";
    if s != "" && IsSpace(s[0]) {
      var rest := LStripped(s[1..]);
      before := [s[0]] + rest;
    }
  }

  lemma {:induction false} RStripped(s: string) returns (after: string)
    ensures s == RStrip(s) + after && Blank(after)
    decreases |s|
  {
    after := "";
    if s != "" && IsSpace(s[|s| - 1]) {
      var rest := RStripped(s[..|s| - 1]);
      after := rest + [s[|s| - 1]];
      assert s == s[..|s| - 1] + [s[|s| - 1]];
    }
  }

  lemma BlankFront(s: string)
    requires s != "" && IsSpace(s[0])
    ensures Blank(s) <==> Blank(s[1..])
  {
    assert forall i :: 1 <= i < |s| ==> s[i] == s[1..][i - 1];
  }

  lemma BlankBack(s: string)
    requires s != "" && IsSpace(s[|s| - 1])
    ensures Blank(s) <==> Blank(s[..|s| - 1])
  {
    assert forall i :: 0 <= i < |s| - 1 ==> s[i] == s[..|s| - 1][i];
  }

  lemma {:induction false} LStripAppend(a: string, b: string)
    ensures LStrip(a + b) == if Blank(a) then LStrip(b) else LStrip(a) + b
    decreases |a|
  {
    if a == "" {
      assert a + b == b;
    } else if IsSpace(a[0]) {
      assert (a + b)[1..] == a[1..] + b;
      LStripAppend(a[1..], b);
      BlankFront(a);
    }
  }

  lemma {:induction false} RStripAppend(a: string, b: string)
    ensures RStrip(a + b) == if Blank(b) then RStrip(a) else a + RStrip(b)
    decreases |b|
  {
    if b == "" {
      assert a + b == a;
    } else if IsSpace(b[|b| - 1]) {
      assert (a + b)[..|a + b| - 1] == a + b[..|b| - 1];
      RStripAppend(a, b[..|b| - 1]);
      BlankBack(b);
    } else {
      assert (a + b)[|a + b| - 1] == b[|b| - 1];
    }
  }

  lemma {:induction false} BlankStrips(s: string)
    ensures Blank(s) <==> LStrip(s) == ""
    ensures Blank(s) <==> RStrip(s) == ""
    decreases |s|
  {
    if s != "" {
      BlankStrips(s[1..]);
      BlankStrips(s[..|s| - 1]);
      if IsSpace(s[0]) {
        BlankFront(s);
      }
      if IsSpace(s[|s| - 1]) {
        BlankBack(s);
      }
    }
  }

  lemma LStripBefore(before: string, rest: string)
    requires rest != "" && !IsSpace(rest[0])
    ensures LStrip(before + rest) == LStrip(before) + rest
  {
    LStripAppend(before, rest);
    BlankStrips(before);
  }

  lemma RStripAfter(rest: string, after: string)
    requires rest != "" && !IsSpace(rest[|rest| - 1])
    ensures RStrip(rest + after) == rest + RStrip(after)
  {
    RStripAppend(rest, after);
    BlankStrips(after);
  }

  /** A core that begins and ends with a visible character is untouched by strip. */
  lemma StripAround(before: string, core: string, after: string)
    requires core != "" && !IsSpace(core[0]) && !IsSpace(core[|core| - 1])
    ensures Strip(before + core + after) == LStrip(before) + core + RStrip(after)
  {
    var left := LStrip(before);
    assert before + core + after == before + (core + after);
    LStripBefore(before, core + after);
    assert left + (core + after) == (left + core) + after;
    RStripAfter(left + core, after);
  }

  lemma StripSpaceFirst(c: char, s: string)
    requires IsSpace(c)
    ensures Strip([c] + s) == Strip(s)
  {
    assert ([c] + s)[1..] == s;
  }

  lemma StripSpaceLast(s: string, c: char)
    requires IsSpace(c)
    ensures Strip(s + [c]) == Strip(s)
  {
    LStripAppend(s, [c]);
    BlankStrips(s);
    if !Blank(s) {
      RStripAppend(LStrip(s), [c]);
    }
  }

  lemma {:induction false} RStripFirst(s: string)
    requires s != "" && !IsSpace(s[0])
    ensures RStrip(s) != "" && RStrip(s)[0] == s[0]
    decreases |s|
  {
    if IsSpace(s[|s| - 1]) {
      RStripFirst(s[..|s| - 1]);
    }
  }

  lemma StripTwice(s: string)
    ensures Strip(Strip(s)) == Strip(s)
  {
    if LStrip(s) != "" {
      RStripFirst(LStrip(s));
    }
  }

  /** lower() on ASCII letters; other characters are left alone. */
  function LowerChar(c: char): char {
    if 'A' <= c <= 'Z' then 'a' + (c - 'A') else c
  }

  function Lower(s: string): (r: string)
    ensures |r| == |s|
  {
    if s == "" then "" else [LowerChar(s[0])] + Lower(s[1..])
  }

  /** Each letter from A to Z becomes the one 32 places on; every other character stays. */
  lemma {:induction false} LowerAt(s: string, i: nat)
    requires i < |s|
    ensures Lower(s)[i] as int == if 65 <= s[i] as int <= 90 then s[i] as int + 32 else s[i] as int
  {
    if i > 0 {
      LowerAt(s[1..], i - 1);
    }
  }
}
