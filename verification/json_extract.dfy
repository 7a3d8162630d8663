/**
 The JSON object extractor of services/seller_profile.py: a scanner that counts braces
 outside strings. Strings follow section 7 of RFC 8259.
*/
module JsonExtract {
  import opened Common
  import opened Text

  datatype Error = NoObject | Unbalanced

  /** The three variables of the scanning loop. */
  datatype Scan = Scan(depth: int, inString: bool, escape: bool)

  function Feed(st: Scan, c: char): Scan {
    if st.inString then
      if st.escape then st.(escape := false)
      else if c == '\\' then st.(escape := true)
      else if c == '"' then st.(inString := false)
      else st
    else if c == '"' then st.(inString := true)
    else if c == '{' then st.(depth := st.depth + 1)
    else if c == '}' then st.(depth := st.depth - 1)
    else st
  }

  function FeedAll(st: Scan, s: string): Scan
    decreases |s|
  {
    if s == "" then st else FeedAll(Feed(st, s[0]), s[1..])
  }

  /** The brace that brings the depth back to zero. */
  predicate Closes(st: Scan, c: char) {
    !st.inString && c == '}' && st.depth == 1
  }

  function Later(at: Option<nat>, n: nat): Option<nat> {
    if at.Some? then Some(at.value + n) else None
  }

  /** The index of the first closing brace, if the text has one. */
  function FirstClose(st: Scan, s: string): (at: Option<nat>)
    ensures at.Some? ==> at.value < |s| && s[at.value] == '}'
    decreases |s|
  {
    if s == "" then None
    else if Closes(st, s[0]) then Some(0)
    else Later(FirstClose(Feed(st, s[0]), s[1..]), 1)
  }

  /** str.find(c): the first index of c. */
  function Find(s: string, c: char): (at: Option<nat>)
    ensures at.Some? ==> at.value < |s| && s[at.value] == c && forall i :: 0 <= i < at.value ==> s[i] != c
    ensures at.None? ==> forall i :: 0 <= i < |s| ==> s[i] != c
    decreases |s|
  {
    if s == "" then None
    else if s[0] == c then Some(0)
    else Later(Find(s[1..], c), 1)
  }

  const Outside := Scan(0, false, false)

  predicate Shortcut(stripped: string) {
    stripped != "" && stripped[0] == '{' && stripped[|stripped| - 1] == '}'
  }

  function Extract(text: string): Result<string, Error> {
    ExtractStripped(Strip(text))
  }

  function ExtractStripped(stripped: string): Result<string, Error> {
    if Shortcut(stripped) then Ok(stripped) else
    match Find(stripped, '{')
    case None => Err(NoObject)
    case Some(start) =>
      match FirstClose(Outside, stripped[start..])
      case None => Err(Unbalanced)
      case Some(at) => Ok(stripped[start..start + at + 1])
  }

  /** The first closing brace of s from i on, counted from start. */
  function CloseFrom(st: Scan, s: string, i: nat, start: nat): Option<nat>
    requires start <= i <= |s|
  {
    Later(FirstClose(st, s[i..]), i - start)
  }

  lemma NextClose(st: Scan, s: string, i: nat, start: nat)
    requires start <= i < |s|
    ensures CloseFrom(st, s, i, start)
         == if Closes(st, s[i]) then Some(i - start) else CloseFrom(Feed(st, s[i]), s, i + 1, start)
  {
    assert s[i..][1..] == s[i + 1..];
  }

  method ExtractJson(text: string) returns (result: Result<string, Error>)
    ensures result == Extract(text)
  {
    var stripped := Strip(text);
    if Shortcut(stripped) {
      return Ok(stripped);
    }
    var found := Find(stripped, '{');
    if found.None? {
      return Err(NoObject);
    }
    var start := found.value;
    var depth, inString, escape := 0, false, false;
    ghost var first := FirstClose(Outside, stripped[start..]);
    for i := start to |stripped|
      invariant first == CloseFrom(Scan(depth, inString, escape), stripped, i, start)
      invariant escape ==> inString
    {
      var c := stripped[i];
      ghost var before := Scan(depth, inString, escape);
      NextClose(before, stripped, i, start);
      if inString {
        if escape {
          escape := false;
        } else if c == '\\' {
          escape := true;
        } else if c == '"' {
          inString := false;
        }
      } else if c == '"' {
        inString := true;
      } else if c == '{' {
        depth := depth + 1;
      } else if c == '}' {
        depth := depth - 1;
        if depth == 0 {
          assert first == Some(i - start);
          return Ok(stripped[start..i + 1]);
        }
      }
      assert Scan(depth, inString, escape) == Feed(before, c);
    }
    result := Err(Unbalanced);
  }

  // ---- what is refused --------------------------------------------------------

  /** From depth 1 or more on, the first closing brace is where the depth first comes down to 0. */
  lemma {:induction false} FirstCloseMeaning(st: Scan, s: string)
    requires st.depth >= 1
    ensures FirstClose(st, s).None? ==> forall k :: 0 <= k <= |s| ==> FeedAll(st, s[..k]).depth >= 1
    ensures FirstClose(st, s).Some? ==>
      var at := FirstClose(st, s).value;
      && (forall k :: 0 <= k <= at ==> FeedAll(st, s[..k]).depth >= 1)
      && FeedAll(st, s[..at + 1]).depth == 0
    decreases |s|
  {
    if s != "" {
      var next := Feed(st, s[0]);
      assert s[..1] == [s[0]] && FeedAll(st, [s[0]]) == next by {
        assert [s[0]][1..] == "";
      }
      if !Closes(st, s[0]) {
        FirstCloseMeaning(next, s[1..]);
        forall k | 0 < k <= |s|
          ensures FeedAll(st, s[..k]) == FeedAll(next, s[1..][..k - 1])
        {
          assert s[..k][1..] == s[1..][..k - 1];
        }
      }
    }
  }

  /**
   Text without an opening brace has no object; text whose first opening brace is never closed is
   unbalanced; and otherwise, unless the shortcut is taken, the answer begins with the first
   opening brace and ends where the depth first comes back to 0.
  */
  lemma ExtractMeaning(text: string, start: nat)
    requires var stripped := Strip(text);
             start < |stripped| && stripped[start] == '{' && forall i :: 0 <= i < start ==> stripped[i] != '{'
    ensures var (stripped, rest) := (Strip(text), Strip(text)[start..]);
            && Extract(text) != Err(NoObject)
            && (Extract(text) == Err(Unbalanced) <==>
                  !Shortcut(stripped) && forall k :: 0 < k <= |rest| ==> FeedAll(Outside, rest[..k]).depth >= 1)
            && (Extract(text).Ok? && !Shortcut(stripped) ==>
                  exists n :: && 0 < n <= |rest| && Extract(text).value == rest[..n]
                              && FeedAll(Outside, rest[..n]).depth == 0
                              && forall k :: 0 < k < n ==> FeedAll(Outside, rest[..k]).depth >= 1)
            && (Shortcut(stripped) <==>
                  stripped != "" && stripped[0] == '{' && stripped[|stripped| - 1] == '}')
            && (Shortcut(stripped) ==> Extract(text) == Ok(stripped))
  {
    var (stripped, rest) := (Strip(text), Strip(text)[start..]);
    ObjectScan(rest);
    if !Shortcut(stripped) {
      ExtractScans(stripped, rest, start);
    }
  }

  lemma ExtractScans(stripped: string, rest: string, start: nat)
    requires start < |stripped| && stripped[start] == '{' && forall i :: 0 <= i < start ==> stripped[i] != '{'
    requires rest == stripped[start..] && !Shortcut(stripped)
    ensures ExtractStripped(stripped) == match FirstClose(Outside, rest)
                                         case None => Err(Unbalanced)
                                         case Some(at) => Ok(rest[..at + 1])
  {
    assert Find(stripped, '{') == Some(start);
    if FirstClose(Outside, rest).Some? {
      var n := FirstClose(Outside, rest).value + 1;
      assert stripped[start..start + n] == rest[..n];
    }
  }

  /** Scanned from an opening brace on, the text is closed where its depth first comes back to 0. */
  lemma ObjectScan(rest: string)
    requires rest != "" && rest[0] == '{'
    ensures FirstClose(Outside, rest).None? ==> forall k :: 0 < k <= |rest| ==> FeedAll(Outside, rest[..k]).depth >= 1
    ensures FirstClose(Outside, rest).Some? ==>
      var n := FirstClose(Outside, rest).value + 1;
      && 0 < n <= |rest| && FeedAll(Outside, rest[..n]).depth == 0
      && forall k :: 0 < k < n ==> FeedAll(Outside, rest[..k]).depth >= 1
  {
    var (inside, tail) := (Scan(1, false, false), rest[1..]);
    var at := FirstClose(inside, tail);
    assert FirstClose(Outside, rest) == Later(at, 1);
    forall k | 0 < k <= |rest| && (at.None? || k <= at.value + 1)
      ensures FeedAll(Outside, rest[..k]).depth >= 1
    {
      StillOpen(rest, tail, k);
    }
    if at.Some? {
      FirstCloseMeaning(inside, tail);
      PrefixScan(rest, tail, at.value + 2, at.value + 1);
    }
  }

  lemma StillOpen(rest: string, tail: string, k: nat)
    requires rest != "" && rest[0] == '{' && tail == rest[1..] && 0 < k <= |rest|
    requires var at := FirstClose(Scan(1, false, false), tail); at.None? || k <= at.value + 1
    ensures FeedAll(Outside, rest[..k]).depth >= 1
  {
    FirstCloseMeaning(Scan(1, false, false), tail);
    var m := k - 1;
    PrefixScan(rest, tail, k, m);
    assert FeedAll(Scan(1, false, false), tail[..m]).depth >= 1;
  }

  lemma PrefixScan(rest: string, tail: string, k: nat, m: nat)
    requires rest != "" && rest[0] == '{' && tail == rest[1..] && k == m + 1 && k <= |rest|
    ensures FeedAll(Outside, rest[..k]) == FeedAll(Scan(1, false, false), tail[..m])
  {
    assert rest[..k][1..] == tail[..m];
  }

  lemma NoBraceNoObject(text: string)
    ensures Extract(text) == Err(NoObject) <==> forall i :: 0 <= i < |Strip(text)| ==> Strip(text)[i] != '{'
  {
  }

  // ---- printed JSON -----------------------------------------------------------

  /** A JSON value. A string carries its escaped body, a scalar its literal text. */
  datatype Json = Str(body: string) | Scalar(text: string) | Arr(items: Items) | Obj(members: Members)

  datatype Items = NoItem | Item(head: Json, tail: Items)

  datatype Members = NoMember | Member(name: string, value: Json, tail: Members)

  /** Line breaks and indentation by nesting level, and the blank after a colon. */
  datatype Style = Style(line: nat -> string, colon: string)

  /** A string body in which every quotation mark and backslash is escaped. */
  predicate Escaped(body: string)
    decreases |body|
  {
    body == ""
    || (body[0] != '"' && body[0] != '\\' && Escaped(body[1..]))
    || (body[0] == '\\' && |body| >= 2 && Escaped(body[2..]))
  }

  predicate Plain(s: string) {
    forall i :: 0 <= i < |s| ==> s[i] != '"' && s[i] != '{' && s[i] != '}'
  }

  predicate WellFormed(j: Json) {
    match j
    case Str(body) => Escaped(body)
    case Scalar(text) => Plain(text)
    case Arr(items) => WellFormedItems(items)
    case Obj(members) => WellFormedMembers(members)
  }

  predicate WellFormedItems(items: Items) {
    items.NoItem? || (WellFormed(items.head) && WellFormedItems(items.tail))
  }

  predicate WellFormedMembers(members: Members) {
    members.NoMember? || (Escaped(members.name) && WellFormed(members.value) && WellFormedMembers(members.tail))
  }

  ghost predicate BlankStyle(style: Style) {
    Blank(style.colon) && forall level: nat :: Blank(style.line(level))
  }

  function Quoted(body: string): string {
    "\"" + body + "\""
  }

  function Print(j: Json, style: Style, level: nat): string
    decreases j, 0
  {
    match j
    case Str(body) => Quoted(body)
    case Scalar(text) => text
    case Arr(items) =>
      if items.NoItem? then "[]"
      else "[" + style.line(level + 1) + PrintItems(items, style, level + 1) + style.line(level) + "]"
    case Obj(members) =>
      if members.NoMember? then "{}"
      else "{" + (style.line(level + 1) + PrintMembers(members, style, level + 1) + style.line(level)) + "}"
  }

  function PrintItems(items: Items, style: Style, level: nat): string
    decreases items, 0
  {
    match items
    case NoItem => ""
    case Item(head, NoItem) => Print(head, style, level)
    case Item(head, tail) => Print(head, style, level) + ("," + style.line(level)) + PrintItems(tail, style, level)
  }

  function PrintMember(name: string, value: Json, style: Style, level: nat): string
    decreases value, 1
  {
    Quoted(name) + (":" + style.colon) + Print(value, style, level)
  }

  function PrintMembers(members: Members, style: Style, level: nat): string
    decreases members, 0
  {
    match members
    case NoMember => ""
    case Member(name, value, NoMember) => PrintMember(name, value, style, level)
    case Member(name, value, tail) =>
      PrintMember(name, value, style, level) + ("," + style.line(level)) + PrintMembers(tail, style, level)
  }

  /** The escapes that section 7 of RFC 8259 demands. */
  function Escape(s: string): string
    decreases |s|
  {
    if s == "" then "" else EscapeChar(s[0]) + Escape(s[1..])
  }

  function EscapeChar(c: char): string {
    if c == '"' then "\\\""
    else if c == '\\' then "\\\\"
    else if (c as int) < 0x20 then ['\\', 'u', '0', '0', Hex(c as int / 16), Hex(c as int % 16)]
    else [c]
  }

  function Hex(n: int): char
    requires 0 <= n < 16
  {
    if n < 10 then (48 + n) as char else (87 + n) as char
  }

  /** Whatever characters a string holds, its RFC 8259 escape is a body the tree may carry. */
  lemma {:induction false} EscapeIsEscaped(s: string)
    ensures Escaped(Escape(s))
    decreases |s|
  {
    if s != "" {
      EscapeIsEscaped(s[1..]);
      EscapedPrepends(s[0], Escape(s[1..]));
    }
  }

  lemma PlainPrepends(c: char, tail: string)
    requires c != '"' && c != '\\' && Escaped(tail)
    ensures Escaped([c] + tail)
  {
    assert ([c] + tail)[1..] == tail;
  }

  lemma PairPrepends(c: char, tail: string)
    requires Escaped(tail)
    ensures Escaped(['\\', c] + tail)
  {
    assert (['\\', c] + tail)[2..] == tail;
  }

  lemma HexPrepends(h: char, l: char, tail: string)
    requires Escaped(tail) && h != '"' && h != '\\' && l != '"' && l != '\\'
    ensures Escaped(['\\', 'u', '0', '0', h, l] + tail)
  {
    var (one, two) := ([l] + tail, [h] + ([l] + tail));
    PlainPrepends(l, tail);
    PlainPrepends(h, one);
    PlainPrepends('0', two);
    PlainPrepends('0', ['0'] + two);
    PairPrepends('u', ['0'] + (['0'] + two));
    assert ['\\', 'u', '0', '0', h, l] + tail == ['\\', 'u'] + (['0'] + (['0'] + two));
  }

  lemma EscapedPrepends(c: char, tail: string)
    requires Escaped(tail)
    ensures Escaped(EscapeChar(c) + tail)
  {
    if c == '"' || c == '\\' {
      PairPrepends(c, tail);
    } else if c as int < 0x20 {
      HexPrepends(Hex(c as int / 16), Hex(c as int % 16), tail);
    } else {
      PlainPrepends(c, tail);
    }
  }

  // ---- scanning what was printed ----------------------------------------------

  /** The lowest depth reached while s is scanned. */
  function Low(st: Scan, s: string): int
    decreases |s|
  {
    if s == "" then st.depth else Min(st.depth, Low(Feed(st, s[0]), s[1..]))
  }

  lemma {:induction false} FeedAppend(st: Scan, a: string, b: string)
    ensures FeedAll(st, a + b) == FeedAll(FeedAll(st, a), b)
    ensures Low(st, a + b) == Min(Low(st, a), Low(FeedAll(st, a), b))
    decreases |a|
  {
    if a == "" {
      assert a + b == b;
    } else {
      assert (a + b)[0] == a[0] && (a + b)[1..] == a[1..] + b;
      FeedAppend(Feed(st, a[0]), a[1..], b);
    }
  }

  /** Scanned outside a string at depth d, s ends where it began and never falls below d. */
  predicate LevelAt(s: string, d: int) {
    FeedAll(Scan(d, false, false), s) == Scan(d, false, false) && Low(Scan(d, false, false), s) >= d
  }

  ghost predicate Level(s: string) {
    forall d :: LevelAt(s, d)
  }

  lemma LevelAppend(a: string, b: string)
    requires Level(a) && Level(b)
    ensures Level(a + b)
  {
    forall d
      ensures LevelAt(a + b, d)
    {
      assert LevelAt(a, d) && LevelAt(b, d);
      FeedAppend(Scan(d, false, false), a, b);
    }
  }

  lemma {:induction false} PlainLevelAt(s: string, d: int)
    requires Plain(s)
    ensures LevelAt(s, d)
    decreases |s|
  {
    if s != "" {
      PlainLevelAt(s[1..], d);
    }
  }

  lemma PlainLevel(s: string)
    requires Plain(s)
    ensures Level(s)
  {
    forall d
      ensures LevelAt(s, d)
    {
      PlainLevelAt(s, d);
    }
  }

  lemma {:induction false} BodyScan(body: string, d: int)
    requires Escaped(body)
    ensures FeedAll(Scan(d, true, false), body) == Scan(d, true, false) && Low(Scan(d, true, false), body) >= d
    decreases |body|
  {
    if body != "" {
      if body[0] == '\\' {
        assert body[1..][1..] == body[2..];
        BodyScan(body[2..], d);
      } else {
        BodyScan(body[1..], d);
      }
    }
  }

  lemma QuotedLevelAt(body: string, text: string, d: int)
    requires Escaped(body) && text == Quoted(body)
    ensures LevelAt(text, d)
  {
    var (outside, inside) := (Scan(d, false, false), Scan(d, true, false));
    BodyScan(body, d);
    FeedAppend(inside, body, "\"");
    assert FeedAll(inside, "\"") == outside && Low(inside, "\"") == d by {
      assert "\""[1..] == "";
    }
    assert text[0] == '"' && text[1..] == body + "\"";
    assert Feed(outside, '"') == inside;
  }

  lemma QuotedLevel(body: string)
    requires Escaped(body)
    ensures Level(Quoted(body))
  {
    forall d
      ensures LevelAt(Quoted(body), d)
    {
      QuotedLevelAt(body, Quoted(body), d);
    }
  }

  lemma BracedLevelAt(inner: string, text: string, d: int)
    requires LevelAt(inner, d + 1) && text == "{" + inner + "}"
    ensures LevelAt(text, d)
  {
    var (outside, inside) := (Scan(d, false, false), Scan(d + 1, false, false));
    FeedAppend(inside, inner, "}");
    assert FeedAll(inside, "}") == outside && Low(inside, "}") == d by {
      assert "}"[1..] == "";
    }
    assert text[0] == '{' && text[1..] == inner + "}";
    assert Feed(outside, '{') == inside;
  }

  lemma BracedLevel(inner: string)
    requires Level(inner)
    ensures Level("{" + inner + "}")
  {
    forall d
      ensures LevelAt("{" + inner + "}", d)
    {
      BracedLevelAt(inner, "{" + inner + "}", d);
    }
  }

  lemma GapLevel(gap: string)
    requires Blank(gap)
    ensures Level(gap) && Level("," + gap) && Level(":" + gap)
  {
    assert Plain(gap) && Plain("," + gap) && Plain(":" + gap);
    PlainLevel(gap);
    PlainLevel("," + gap);
    PlainLevel(":" + gap);
  }

  lemma {:induction false} PrintLevel(j: Json, style: Style, level: nat)
    requires WellFormed(j) && BlankStyle(style)
    ensures Level(Print(j, style, level))
    decreases j, 0
  {
    match j
    case Str(body) => QuotedLevel(body);
    case Scalar(text) => PlainLevel(text);
    case Arr(items) =>
      if items.NoItem? {
        PlainLevel("[]");
      } else {
        var (open, close) := (style.line(level + 1), style.line(level));
        var inner := PrintItems(items, style, level + 1);
        PrintItemsLevel(items, style, level + 1);
        GapLevel(open);
        GapLevel(close);
        PlainLevel("[");
        PlainLevel("]");
        LevelAppend("[", open);
        LevelAppend("[" + open, inner);
        LevelAppend("[" + open + inner, close);
        LevelAppend("[" + open + inner + close, "]");
      }
    case Obj(members) =>
      if members.NoMember? {
        PlainLevel("");
        BracedLevel("");
        assert "{" + "" + "}" == "{}";
      } else {
        InnerLevel(members, style, level);
        BracedLevel(Inner(members, style, level));
      }
  }

  /** What an object with members prints between its braces. */
  function Inner(members: Members, style: Style, level: nat): string {
    style.line(level + 1) + PrintMembers(members, style, level + 1) + style.line(level)
  }

  lemma {:induction false} InnerLevel(members: Members, style: Style, level: nat)
    requires WellFormedMembers(members) && BlankStyle(style)
    ensures Level(Inner(members, style, level))
    decreases members, 1
  {
    PrintMembersLevel(members, style, level + 1);
    GapLevel(style.line(level + 1));
    GapLevel(style.line(level));
    LevelAppend(style.line(level + 1), PrintMembers(members, style, level + 1));
    LevelAppend(style.line(level + 1) + PrintMembers(members, style, level + 1), style.line(level));
  }

  lemma {:induction false} PrintItemsLevel(items: Items, style: Style, level: nat)
    requires WellFormedItems(items) && BlankStyle(style)
    ensures Level(PrintItems(items, style, level))
    decreases items, 0
  {
    match items
    case NoItem => PlainLevel("");
    case Item(head, tail) =>
      PrintLevel(head, style, level);
      if !tail.NoItem? {
        PrintItemsLevel(tail, style, level);
        GapLevel(style.line(level));
        LevelAppend(Print(head, style, level), "," + style.line(level));
        LevelAppend(Print(head, style, level) + ("," + style.line(level)), PrintItems(tail, style, level));
      }
  }

  lemma {:induction false} PrintMembersLevel(members: Members, style: Style, level: nat)
    requires WellFormedMembers(members) && BlankStyle(style)
    ensures Level(PrintMembers(members, style, level))
    decreases members, 0
  {
    match members
    case NoMember => PlainLevel("");
    case Member(name, value, tail) =>
      var first := PrintMember(name, value, style, level);
      QuotedLevel(name);
      GapLevel(style.colon);
      PrintLevel(value, style, level);
      LevelAppend(Quoted(name), ":" + style.colon);
      LevelAppend(Quoted(name) + (":" + style.colon), Print(value, style, level));
      if !tail.NoMember? {
        PrintMembersLevel(tail, style, level);
        GapLevel(style.line(level));
        LevelAppend(first, "," + style.line(level));
        LevelAppend(first + ("," + style.line(level)), PrintMembers(tail, style, level));
      }
  }

  // ---- extraction undoes printing ---------------------------------------------

  /** Text that never falls to depth zero hides no closing brace. */
  lemma {:induction false} CloseLater(st: Scan, a: string, b: string)
    requires Low(st, a) >= 1
    ensures FirstClose(st, a + b) == Later(FirstClose(FeedAll(st, a), b), |a|)
    decreases |a|
  {
    if a == "" {
      assert a + b == b;
    } else {
      var (c, rest) := (a[0], a[1..]);
      assert (a + b)[0] == c && (a + b)[1..] == rest + b;
      assert Low(Feed(st, c), rest) >= 1 && !Closes(st, c);
      CloseLater(Feed(st, c), rest, b);
      LaterLater(FirstClose(FeedAll(Feed(st, c), rest), b), |rest|);
    }
  }

  lemma LaterLater(at: Option<nat>, n: nat)
    ensures Later(Later(at, n), 1) == Later(at, n + 1)
  {
  }

  /** Braces around text that leaves the scanner where it was close at the last one. */
  lemma BracedCloses(inner: string, printed: string, after: string)
    requires LevelAt(inner, 1) && printed == "{" + inner + "}"
    ensures FirstClose(Outside, printed + after) == Some(|printed| - 1)
  {
    var (inside, rest) := (Scan(1, false, false), "}" + after);
    CloseLater(inside, inner, rest);
    assert FirstClose(inside, rest) == Some(0);
    assert (printed + after)[0] == '{' && (printed + after)[1..] == inner + rest;
    assert Feed(Outside, '{') == inside;
  }

  lemma ObjectPrints(members: Members, style: Style, level: nat) returns (inner: string)
    requires WellFormedMembers(members) && BlankStyle(style)
    ensures Level(inner) && Print(Obj(members), style, level) == "{" + inner + "}"
  {
    inner := if members.NoMember? then "" else Inner(members, style, level);
    if members.NoMember? {
      PlainLevel("");
    } else {
      InnerLevel(members, style, level);
    }
  }

  lemma ObjectCloses(members: Members, style: Style, level: nat, after: string)
    requires WellFormedMembers(members) && BlankStyle(style)
    ensures var printed := Print(Obj(members), style, level);
            && printed != "" && printed[0] == '{' && printed[|printed| - 1] == '}'
            && FirstClose(Outside, printed + after) == Some(|printed| - 1)
  {
    var inner := ObjectPrints(members, style, level);
    BracedCloses(inner, "{" + inner + "}", after);
  }

  lemma FindAfter(before: string, text: string)
    requires forall i :: 0 <= i < |before| ==> before[i] != '{'
    requires text != "" && text[0] == '{'
    ensures Find(before + text, '{') == Some(|before|)
  {
    assert (before + text)[|before|] == '{';
    assert forall i :: 0 <= i < |before| ==> (before + text)[i] == before[i];
  }

  lemma {:induction false} LStripKeeps(s: string, c: char)
    requires forall i :: 0 <= i < |s| ==> s[i] != c
    ensures forall i :: 0 <= i < |LStrip(s)| ==> LStrip(s)[i] != c
    decreases |s|
  {
    if s != "" && IsSpace(s[0]) {
      LStripKeeps(s[1..], c);
    }
  }

  /** Text after the object whose last visible character is a closing brace. */
  predicate EndsInBrace(after: string) {
    RStrip(after) != "" && RStrip(after)[|RStrip(after)| - 1] == '}'
  }

  /** In stripped text that does not take the shortcut, the scan finds the object. */
  lemma ScanBetween(left: string, printed: string, right: string, stripped: string)
    requires printed != "" && printed[0] == '{'
    requires FirstClose(Outside, printed + right) == Some(|printed| - 1)
    requires forall i :: 0 <= i < |left| ==> left[i] != '{'
    requires stripped == left + printed + right && !Shortcut(stripped)
    ensures ExtractStripped(stripped) == Ok(printed)
  {
    assert stripped == left + (printed + right);
    FindAfter(left, printed + right);
    assert stripped[|left|..] == printed + right;
    assert stripped[|left|..|left| + |printed|] == printed;
  }

  lemma ShortcutBetween(left: string, printed: string, right: string, stripped: string)
    requires printed != "" && printed[0] == '{' && printed[|printed| - 1] == '}'
    requires forall i :: 0 <= i < |left| ==> left[i] != '{'
    requires stripped == left + printed + right
    ensures Shortcut(stripped) <==> left == "" && (right == "" || right[|right| - 1] == '}')
    ensures stripped == printed <==> left == "" && right == ""
  {
    assert left != "" ==> stripped[0] == left[0];
    assert left == "" ==> stripped[0] == '{' && stripped == printed + right;
    assert right != "" ==> stripped[|stripped| - 1] == right[|right| - 1];
  }

  lemma ExtractBetween(left: string, printed: string, right: string, stripped: string)
    requires printed != "" && printed[0] == '{' && printed[|printed| - 1] == '}'
    requires FirstClose(Outside, printed + right) == Some(|printed| - 1)
    requires forall i :: 0 <= i < |left| ==> left[i] != '{'
    requires stripped == left + printed + right
    ensures ExtractStripped(stripped) == Ok(printed) <==> !(left == "" && right != "" && right[|right| - 1] == '}')
  {
    ShortcutBetween(left, printed, right, stripped);
    if !Shortcut(stripped) {
      ScanBetween(left, printed, right, stripped);
    }
  }

  lemma ExtractAround(before: string, printed: string, after: string)
    requires printed != "" && printed[0] == '{' && printed[|printed| - 1] == '}'
    requires FirstClose(Outside, printed + RStrip(after)) == Some(|printed| - 1)
    requires forall i :: 0 <= i < |before| ==> before[i] != '{'
    ensures Extract(before + printed + after) == Ok(printed) <==> !(Blank(before) && EndsInBrace(after))
  {
    StripAround(before, printed, after);
    BlankStrips(before);
    LStripKeeps(before, '{');
    ExtractBetween(LStrip(before), printed, RStrip(after), Strip(before + printed + after));
  }

  /**
   Extraction undoes printing, whatever braces and escaped quotes the strings hold: text
   without an opening brace before a printed object, and any text after it, give back
   exactly the object, if and only if it is not the case that only blanks come before it
   and the text after it ends in a closing brace.
  */
  lemma ExtractUndoesPrint(before: string, members: Members, style: Style, level: nat, after: string)
    requires WellFormedMembers(members) && BlankStyle(style)
    requires forall i :: 0 <= i < |before| ==> before[i] != '{'
    ensures var printed := Print(Obj(members), style, level);
            Extract(before + printed + after) == Ok(printed) <==> !(Blank(before) && EndsInBrace(after))
  {
    ObjectCloses(members, style, level, RStrip(after));
    ExtractAround(before, Print(Obj(members), style, level), after);
  }
}
