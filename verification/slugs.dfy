/**
 utils/slugs.py:slugify. The name arrives already decomposed by Unicode normalisation; what
 is left outside ASCII is dropped here, as the encoding step drops it.
*/
module Slugs {
  import opened Text

  const TLDS := ["com", "io", "co", "org", "net", "ai", "app", "dev", "xyz", "tech", "cloud", "inc", "ltd"]

  const FALLBACK := "untitled"

  predicate IsAlnum(c: char) {
    'a' <= c <= 'z' || '0' <= c <= '9'
  }

  function Ascii(s: string): string {
    if s == "" then "" else AsciiChar(s[0]) + Ascii(s[1..])
  }

  function AsciiChar(c: char): string {
    if c as int < 128 then [c] else []
  }

  /** rfind(c): the last place of c, or -1. */
  function LastIndex(s: string, c: char): (i: int)
    ensures -1 <= i < |s|
    ensures i >= 0 ==> s[i] == c
    ensures forall k :: i < k < |s| ==> s[k] != c
    decreases |s|
  {
    if s == "" then -1
    else if s[|s| - 1] == c then |s| - 1
    else LastIndex(s[..|s| - 1], c)
  }

  /** A final dot and top-level domain, in any case, is removed; `$` also matches before a final newline. */
  function StripTld(s: string): string {
    if s != "" && s[|s| - 1] == '\n' then Stripped(s[..|s| - 1]) + "\n" else Stripped(s)
  }

  function Stripped(body: string): string {
    var dot := LastIndex(body, '.');
    if dot >= 0 && Lower(body[dot + 1..]) in TLDS then body[..dot] else body
  }

  /** s without its leading characters that are no letter or digit */
  function AfterRun(s: string): (r: string)
    ensures |r| <= |s| && (r == "" || IsAlnum(r[0]))
    ensures s != "" && !IsAlnum(s[0]) ==> |r| < |s|
  {
    if s == "" || IsAlnum(s[0]) then s else AfterRun(s[1..])
  }

  /** Every run of other characters becomes one hyphen. */
  function Hyphenate(s: string): string
    decreases |s|
  {
    if s == "" then ""
    else if IsAlnum(s[0]) then [s[0]] + Hyphenate(s[1..])
    else "-" + Hyphenate(AfterRun(s))
  }

  function Collapse(s: string): string {
    if |s| < 2 then s
    else if s[0] == '-' && s[1] == '-' then Collapse(s[1..])
    else [s[0]] + Collapse(s[1..])
  }

  function LStripHyphens(s: string): string {
    if s != "" && s[0] == '-' then LStripHyphens(s[1..]) else s
  }

  function RStripHyphens(s: string): string
    decreases |s|
  {
    if s != "" && s[|s| - 1] == '-' then RStripHyphens(s[..|s| - 1]) else s
  }

  /** The slug before it is cut to length. */
  function Core(name: string): string {
    RStripHyphens(LStripHyphens(Collapse(Hyphenate(Lower(StripTld(Ascii(name)))))))
  }

  function Truncate(text: string, maxLength: nat): string {
    if |text| <= maxLength then text else
    var head := text[..maxLength];
    var hyphen := LastIndex(head, '-');
    if hyphen > 0 then head[..hyphen] else head
  }

  function Slugify(name: string, maxLength: nat): string {
    var text := Truncate(Core(name), maxLength);
    if text == "" then FALLBACK else text
  }

  // ---- the shape of a slug ----------------------------------------------------

  predicate SlugChars(s: string) {
    forall i :: 0 <= i < |s| ==> IsAlnum(s[i]) || s[i] == '-'
  }

  predicate NoDoubleHyphen(s: string) {
    forall i :: 0 < i < |s| ==> !(s[i - 1] == '-' && s[i] == '-')
  }

  predicate CleanEdges(s: string) {
    s != "" ==> s[0] != '-' && s[|s| - 1] != '-'
  }

  predicate IsSlug(s: string) {
    s != "" && SlugChars(s) && NoDoubleHyphen(s) && CleanEdges(s)
  }

  lemma {:induction false} HyphenateShape(s: string)
    ensures SlugChars(Hyphenate(s)) && NoDoubleHyphen(Hyphenate(s))
    ensures s != "" && IsAlnum(s[0]) ==> Hyphenate(s) != "" && Hyphenate(s)[0] == s[0]
    decreases |s|
  {
    if s != "" {
      var rest := if IsAlnum(s[0]) then Hyphenate(s[1..]) else Hyphenate(AfterRun(s));
      HyphenateShape(if IsAlnum(s[0]) then s[1..] else AfterRun(s));
      Prepend(if IsAlnum(s[0]) then s[0] else '-', rest);
    }
  }

  lemma Prepend(c: char, rest: string)
    requires SlugChars(rest) && NoDoubleHyphen(rest) && (IsAlnum(c) || c == '-')
    requires c == '-' ==> rest == "" || rest[0] != '-'
    ensures SlugChars([c] + rest) && NoDoubleHyphen([c] + rest)
  {
    var s := [c] + rest;
    forall i | 0 < i < |s|
      ensures !(s[i - 1] == '-' && s[i] == '-')
    {
      if i > 1 {
        assert s[i - 1] == rest[i - 2] && s[i] == rest[i - 1];
      }
    }
  }

  lemma {:induction false} CollapseNothing(s: string)
    requires NoDoubleHyphen(s)
    ensures Collapse(s) == s
  {
    if |s| >= 2 {
      Suffix(s);
      CollapseNothing(s[1..]);
    }
  }

  lemma Suffix(s: string)
    requires s != "" && NoDoubleHyphen(s)
    ensures NoDoubleHyphen(s[1..])
  {
    Part(s, 1, |s|);
  }

  /** Any part of a well-formed text is well formed inside. */
  lemma Part(s: string, i: nat, j: nat)
    requires i <= j <= |s|
    ensures NoDoubleHyphen(s) ==> NoDoubleHyphen(s[i..j])
    ensures SlugChars(s) ==> SlugChars(s[i..j])
  {
    var t := s[i..j];
    if NoDoubleHyphen(s) {
      forall k | 0 < k < |t|
        ensures !(t[k - 1] == '-' && t[k] == '-')
      {
        var m := i + k;
        assert t[k - 1] == s[m - 1] && t[k] == s[m];
      }
    }
  }

  lemma {:induction false} LStripShape(s: string)
    requires SlugChars(s) && NoDoubleHyphen(s)
    ensures var t := LStripHyphens(s); SlugChars(t) && NoDoubleHyphen(t) && (t != "" ==> t[0] != '-')
  {
    if s != "" && s[0] == '-' {
      Part(s, 1, |s|);
      LStripShape(s[1..]);
    }
  }

  lemma {:induction false} RStripShape(s: string)
    requires SlugChars(s) && NoDoubleHyphen(s) && (s != "" ==> s[0] != '-')
    ensures var t := RStripHyphens(s); SlugChars(t) && NoDoubleHyphen(t) && CleanEdges(t)
    decreases |s|
  {
    if s != "" && s[|s| - 1] == '-' {
      Part(s, 0, |s| - 1);
      RStripShape(s[..|s| - 1]);
    }
  }

  lemma CoreShape(name: string)
    ensures Core(name) == "" || IsSlug(Core(name))
  {
    var hyphenated := Hyphenate(Lower(StripTld(Ascii(name))));
    HyphenateShape(Lower(StripTld(Ascii(name))));
    CollapseNothing(hyphenated);
    LStripShape(hyphenated);
    RStripShape(LStripHyphens(hyphenated));
  }

  /** Cutting a slug leaves a slug: the cut never ends on a hyphen. */
  lemma TruncateShape(text: string, maxLength: nat)
    requires IsSlug(text)
    ensures |Truncate(text, maxLength)| <= maxLength
    ensures maxLength > 0 ==> IsSlug(Truncate(text, maxLength))
  {
    if |text| > maxLength {
      var head := text[..maxLength];
      var hyphen := LastIndex(head, '-');
      Part(text, 0, maxLength);
      if hyphen > 0 {
        assert text[hyphen] == '-';
        assert text[hyphen - 1] != '-';
        assert head[..hyphen] == text[0..hyphen];
        Part(text, 0, hyphen);
      }
    }
  }

  lemma FallbackIsSlug()
    ensures IsSlug(FALLBACK) && |FALLBACK| == 8
  {
    assert FALLBACK == ['u', 'n', 't', 'i', 't', 'l', 'e', 'd'];
  }

  /** Every slug is nonempty, made of letters, digits and single hyphens, with no hyphen at either end. */
  lemma SlugShape(name: string, maxLength: nat)
    ensures IsSlug(Slugify(name, maxLength))
    ensures forall c :: c in Slugify(name, maxLength) ==> 'a' <= c <= 'z' || '0' <= c <= '9' || c == '-'
    ensures Core(name) == "" || maxLength == 0 ==> Slugify(name, maxLength) == "untitled"
    ensures |Slugify(name, maxLength)| <= maxLength <==> maxLength >= 8 || (maxLength > 0 && Core(name) != "")
  {
    CoreShape(name);
    FallbackIsSlug();
    if Core(name) != "" {
      TruncateShape(Core(name), maxLength);
    }
  }

  /**
   What is cut: nothing if the text fits; otherwise the text is cut at the last hyphen of its
   first maxLength characters, or after them when they hold no hyphen.
   */
  lemma TruncateMeaning(text: string, maxLength: nat)
    requires IsSlug(text)
    ensures var t := Truncate(text, maxLength);
            && t <= text
            && (t == text <==> |text| <= maxLength)
            && (|text| > maxLength ==>
                  && (forall k :: |t| < k < maxLength ==> text[k] != '-')
                  && (|t| == maxLength || text[|t|] == '-')
                  && (|t| == maxLength ==> forall k :: 0 <= k < maxLength ==> text[k] != '-'))
  {
    if |text| > maxLength {
      var head := text[..maxLength];
      var hyphen := LastIndex(head, '-');
      assert forall k :: 0 <= k < maxLength ==> head[k] == text[k];
    }
  }

  // ---- a slug of a slug -------------------------------------------------------

  lemma {:induction false} SlugUnchanged(s: string)
    requires SlugChars(s)
    ensures Ascii(s) == s && Lower(s) == s
  {
    if s != "" {
      SlugUnchanged(s[1..]);
    }
  }

  lemma {:induction false} HyphenateNothing(s: string)
    requires SlugChars(s) && NoDoubleHyphen(s)
    ensures Hyphenate(s) == s
  {
    if s != "" {
      Part(s, 1, |s|);
      HyphenateNothing(s[1..]);
      if s[0] == '-' {
        assert |s| > 1 ==> !(s[0] == '-' && s[1] == '-');
        assert AfterRun(s) == s[1..];
      }
    }
  }

  lemma NothingStripped(body: string)
    requires forall k :: 0 <= k < |body| ==> body[k] != '.'
    ensures Stripped(body) == body
  {
    assert LastIndex(body, '.') == -1;
  }

  lemma NoDotNoTld(s: string)
    requires '.' !in s
    ensures StripTld(s) == s
  {
    if s != "" && s[|s| - 1] == '\n' {
      NothingStripped(s[..|s| - 1]);
      assert s == s[..|s| - 1] + "\n";
    } else {
      NothingStripped(s);
    }
  }

  lemma NoTld(s: string)
    requires SlugChars(s)
    ensures StripTld(s) == s
  {
    assert '.' !in s;
    NoDotNoTld(s);
  }

  lemma NoEdges(s: string)
    requires CleanEdges(s)
    ensures RStripHyphens(LStripHyphens(s)) == s
  {
  }

  lemma CoreOfSlug(s: string)
    requires IsSlug(s)
    ensures Core(s) == s
  {
    SlugUnchanged(s);
    NoTld(s);
    HyphenateNothing(s);
    CollapseNothing(s);
    NoEdges(s);
  }

  lemma SlugifySlug(s: string, maxLength: nat)
    requires IsSlug(s)
    ensures Slugify(s, maxLength) == s <==> |s| <= maxLength || (maxLength == 0 && s == FALLBACK)
  {
    CoreOfSlug(s);
    TruncateShape(s, maxLength);
  }

  lemma NothingFits(name: string)
    ensures Slugify(name, 0) == FALLBACK
  {
    CoreShape(name);
    if Core(name) != "" {
      TruncateShape(Core(name), 0);
    }
  }

  /** A slug is its own slug, unless the fallback itself is too long for maxLength. */
  lemma SlugifyTwice(name: string, maxLength: nat)
    ensures Slugify(Slugify(name, maxLength), maxLength) == Slugify(name, maxLength)
            <==> maxLength >= 8 || maxLength == 0 || Core(name) != ""
  {
    SlugShape(name, maxLength);
    SlugifySlug(Slugify(name, maxLength), maxLength);
    NothingFits(name);
  }

  /** With the default length, slugify is idempotent and yields at most 80 characters. */
  lemma SlugifyDefault(name: string)
    ensures IsSlug(Slugify(name, 80)) && |Slugify(name, 80)| <= 80
    ensures Slugify(Slugify(name, 80), 80) == Slugify(name, 80)
  {
    SlugShape(name, 80);
    SlugifyTwice(name, 80);
  }

  // ---- the words of a name ----------------------------------------------------

  function RunEnd(s: string): (n: nat)
    ensures n <= |s|
    ensures forall i :: 0 <= i < n ==> IsAlnum(s[i])
    ensures n < |s| ==> !IsAlnum(s[n])
  {
    if s != "" && IsAlnum(s[0]) then 1 + RunEnd(s[1..]) else 0
  }

  /** The maximal runs of letters and digits. */
  function Words(s: string): seq<string>
    decreases |s|
  {
    if s == "" then []
    else if IsAlnum(s[0]) then [s[..RunEnd(s)]] + Words(s[RunEnd(s)..])
    else Words(s[1..])
  }

  /** "-".join(words) */
  function Joined(words: seq<string>): string {
    if words == [] then "" else if |words| == 1 then words[0] else words[0] + "-" + Joined(words[1..])
  }

  lemma {:induction false} WordsAfterRun(s: string)
    ensures Words(AfterRun(s)) == Words(s)
  {
    if s != "" && !IsAlnum(s[0]) {
      WordsAfterRun(s[1..]);
    }
  }

  lemma {:induction false} HyphenateRun(s: string, n: nat)
    requires n <= |s| && forall i :: 0 <= i < n ==> IsAlnum(s[i])
    ensures Hyphenate(s) == s[..n] + Hyphenate(s[n..])
  {
    if n > 0 {
      HyphenateRun(s[1..], n - 1);
      assert s[1..][n - 1..] == s[n..] && s[..n] == [s[0]] + s[1..][..n - 1];
    } else {
      assert s[n..] == s;
    }
  }

  /** Other characters at the end leave a hyphen there. */
  function Trail(s: string): string {
    if s != "" && !IsAlnum(s[|s| - 1]) then "-" else ""
  }

  lemma {:induction false} AfterRunTrail(s: string)
    ensures AfterRun(s) != "" ==> Trail(AfterRun(s)) == Trail(s)
  {
    if s != "" && !IsAlnum(s[0]) {
      AfterRunTrail(s[1..]);
    }
  }

  /** What hyphenation leaves after a word: nothing, a final hyphen, or a hyphen and more words. */
  lemma AfterWord(rest: string)
    requires rest != "" && !IsAlnum(rest[0])
    ensures Hyphenate(rest) == "-" + Hyphenate(AfterRun(rest))
    ensures Words(rest) == Words(AfterRun(rest))
    ensures AfterRun(rest) == "" ==> Hyphenate(rest) == "-" && Trail(rest) == "-"
    ensures AfterRun(rest) != "" ==> Trail(AfterRun(rest)) == Trail(rest)
  {
    WordsAfterRun(rest);
    AfterRunTrail(rest);
    if AfterRun(rest) == "" {
      AllOther(rest);
      assert "-" + Hyphenate("") == "-";
    }
  }

  lemma JoinedFirst(word: string, words: seq<string>)
    requires words != []
    ensures Joined([word] + words) == word + "-" + Joined(words)
  {
    assert ([word] + words)[1..] == words;
  }

  lemma FirstWord(s: string, n: nat, word: string, rest: string)
    requires s != "" && IsAlnum(s[0]) && n == RunEnd(s) && word == s[..n] && rest == s[n..]
    ensures Words(s) == [word] + Words(rest) && Hyphenate(s) == word + Hyphenate(rest)
    ensures rest == "" ==> word == s && Trail(s) == ""
    ensures rest != "" ==> Trail(rest) == Trail(s)
  {
    HyphenateRun(s, n);
    if rest == "" {
      assert word == s;
    } else {
      assert rest[|rest| - 1] == s[|s| - 1];
    }
  }

  lemma {:induction false} HyphenateWords(s: string)
    requires s != "" && IsAlnum(s[0])
    ensures Words(s) != [] && Hyphenate(s) == Joined(Words(s)) + Trail(s)
    decreases |s|
  {
    var n := RunEnd(s);
    var (word, rest) := (s[..n], s[n..]);
    FirstWord(s, n, word, rest);
    if rest != "" {
      AfterWord(rest);
      var t := AfterRun(rest);
      if t != "" {
        HyphenateWords(t);
        JoinedFirst(word, Words(t));
        Reassociate(word, Joined(Words(t)), Trail(t));
      }
    }
  }

  lemma Reassociate(word: string, more: string, trail: string)
    ensures word + ("-" + (more + trail)) == word + "-" + more + trail
  {
  }

  lemma {:induction false} AllOther(s: string)
    requires s != "" && AfterRun(s) == ""
    ensures !IsAlnum(s[|s| - 1])
  {
    if |s| > 1 {
      AllOther(s[1..]);
    }
  }

  lemma {:induction false} WordsAreAlnum(s: string, i: nat)
    requires i < |Words(s)|
    ensures Words(s)[i] != "" && forall k :: 0 <= k < |Words(s)[i]| ==> IsAlnum(Words(s)[i][k])
    decreases |s|
  {
    if IsAlnum(s[0]) {
      if i > 0 {
        WordsAreAlnum(s[RunEnd(s)..], i - 1);
      }
    } else {
      WordsAreAlnum(s[1..], i);
    }
  }

  /** Joined words neither begin nor end with a hyphen. */
  lemma {:induction false} JoinedEdges(words: seq<string>)
    requires words != []
    requires forall i :: 0 <= i < |words| ==> words[i] != "" && forall k :: 0 <= k < |words[i]| ==> IsAlnum(words[i][k])
    ensures var t := Joined(words); t != "" && t[0] != '-' && t[|t| - 1] != '-'
  {
    if |words| > 1 {
      JoinedEdges(words[1..]);
    }
  }

  /** Stripped of the hyphens around them, hyphenated words are joined by single hyphens. */
  lemma WordsStripped(t: string)
    requires t != "" && IsAlnum(t[0])
    ensures RStripHyphens(Hyphenate(t)) == Joined(Words(t))
  {
    HyphenateWords(t);
    forall i | 0 <= i < |Words(t)|
      ensures Words(t)[i] != "" && forall k :: 0 <= k < |Words(t)[i]| ==> IsAlnum(Words(t)[i][k])
    {
      WordsAreAlnum(t, i);
    }
    JoinedEdges(Words(t));
    RStripTrail(Joined(Words(t)), Trail(t));
  }

  /** The slug, before it is cut, is the words of the lower-case name joined by single hyphens. */
  lemma CoreIsWords(name: string)
    ensures Core(name) == Joined(Words(Lower(StripTld(Ascii(name)))))
  {
    var s := Lower(StripTld(Ascii(name)));
    HyphenateShape(s);
    CollapseNothing(Hyphenate(s));
    WordsAfterRun(s);
    LStripToWords(s);
    if AfterRun(s) != "" {
      WordsStripped(AfterRun(s));
    }
  }

  /** The letters and digits of a text, and nothing else. */
  function Visible(s: string): string {
    if s == "" then "" else VisibleChar(s[0]) + Visible(s[1..])
  }

  function VisibleChar(c: char): string {
    if 'a' <= c <= 'z' || '0' <= c <= '9' then [c] else ""
  }

  lemma {:induction false} VisibleAppend(a: string, b: string)
    ensures Visible(a + b) == Visible(a) + Visible(b)
  {
    if a == "" {
      assert a + b == b;
    } else {
      assert (a + b)[0] == a[0] && (a + b)[1..] == a[1..] + b;
      VisibleAppend(a[1..], b);
    }
  }

  lemma {:induction false} HyphenateKeeps(s: string)
    ensures Visible(Hyphenate(s)) == Visible(s)
    decreases |s|
  {
    if s != "" {
      if IsAlnum(s[0]) {
        HyphenateKeeps(s[1..]);
        VisibleAppend([s[0]], Hyphenate(s[1..]));
      } else {
        HyphenateKeeps(AfterRun(s));
        VisibleAppend("-", Hyphenate(AfterRun(s)));
        AfterRunKeeps(s);
      }
    }
  }

  lemma {:induction false} AfterRunKeeps(s: string)
    ensures Visible(AfterRun(s)) == Visible(s)
  {
    if s != "" && !IsAlnum(s[0]) {
      AfterRunKeeps(s[1..]);
    }
  }

  lemma {:induction false} LStripKeepsVisible(s: string)
    ensures Visible(LStripHyphens(s)) == Visible(s)
  {
    if s != "" && s[0] == '-' {
      LStripKeepsVisible(s[1..]);
    }
  }

  lemma {:induction false} RStripKeepsVisible(s: string)
    ensures Visible(RStripHyphens(s)) == Visible(s)
    decreases |s|
  {
    if s != "" && s[|s| - 1] == '-' {
      RStripKeepsVisible(s[..|s| - 1]);
      assert s == s[..|s| - 1] + "-";
      VisibleAppend(s[..|s| - 1], "-");
    }
  }

  /** A slug loses no letter and no digit before it is cut, and keeps them in order. */
  lemma CoreKeeps(name: string)
    ensures Visible(Core(name)) == Visible(Lower(StripTld(Ascii(name))))
  {
    var s := Lower(StripTld(Ascii(name)));
    HyphenateShape(s);
    CollapseNothing(Hyphenate(s));
    HyphenateKeeps(s);
    LStripKeepsVisible(Hyphenate(s));
    RStripKeepsVisible(LStripHyphens(Hyphenate(s)));
  }

  /** A character is dropped if its code is above 127. */
  lemma AsciiOne(c: char)
    ensures Ascii([c]) == if c as int <= 127 then [c] else ""
  {
    assert [c][1..] == "";
  }

  /** The others stay, in order. */
  lemma {:induction false} AsciiKeeps(a: string, b: string)
    ensures Ascii(a + b) == Ascii(a) + Ascii(b)
  {
    if a == "" {
      assert a + b == b;
    } else {
      assert (a + b)[0] == a[0] && (a + b)[1..] == a[1..] + b;
      AsciiKeeps(a[1..], b);
    }
  }

  /**
   Of a name that ends in a dot and a text without dots, that end is removed exactly if the text is
   one of thirteen top-level domains in any case; a final line feed after it is kept. A name without
   a dot is left as it is.
  */
  lemma StripTldMeaning(base: string, ending: string)
    requires '.' !in ending && '\n' !in ending
    ensures var known := Lower(ending) in {"com", "io", "co", "org", "net", "ai", "app", "dev", "xyz", "tech", "cloud",
                                           "inc", "ltd"};
            && StripTld(base + "." + ending) == (if known then base else base + "." + ending)
            && StripTld(base + "." + ending + "\n") == (if known then base + "\n" else base + "." + ending + "\n")
            && StripTld(ending) == ending
  {
    var s := base + "." + ending;
    EndsPlain(s, base, ending);
    StripOne(s, base, ending);
    StripLine(s + "\n", s);
    NoDotNoTld(ending);
    TldsAre(Lower(ending));
  }

  lemma TldsAre(x: string)
    ensures x in TLDS <==>
            x in {"com", "io", "co", "org", "net", "ai", "app", "dev", "xyz", "tech", "cloud", "inc", "ltd"}
  {
  }

  lemma EndsPlain(s: string, base: string, ending: string)
    requires s == base + "." + ending && '\n' !in ending
    ensures s != "" && s[|s| - 1] != '\n'
  {
    if ending != "" {
      assert ending[|ending| - 1] in ending;
    }
  }

  lemma StripOne(s: string, base: string, ending: string)
    requires s == base + "." + ending && '.' !in ending
    ensures Stripped(s) == if Lower(ending) in TLDS then base else s
  {
    DotAt(s, base, ending);
  }

  lemma StripLine(line: string, s: string)
    requires line == s + "\n"
    ensures StripTld(line) == Stripped(s) + "\n"
  {
    assert line[..|line| - 1] == s;
  }

  /** The last dot is before an ending without dots. */
  lemma DotAt(s: string, base: string, ending: string)
    requires s == base + "." + ending && '.' !in ending
    ensures LastIndex(s, '.') == |base| && s[..|base|] == base && s[|base| + 1..] == ending
  {
    assert s[|base|] == '.';
  }

  lemma LStripToWords(s: string)
    ensures LStripHyphens(Hyphenate(s)) == Hyphenate(AfterRun(s))
  {
    HyphenateShape(AfterRun(s));
    if s != "" && !IsAlnum(s[0]) {
      assert ("-" + Hyphenate(AfterRun(s)))[1..] == Hyphenate(AfterRun(s));
    }
  }

  lemma RStripTrail(text: string, trail: string)
    requires text != "" && text[|text| - 1] != '-' && (trail == "" || trail == "-")
    ensures RStripHyphens(text + trail) == text
  {
    if trail == "-" {
      assert (text + trail)[..|text + trail| - 1] == text;
    } else {
      assert text + trail == text;
    }
  }
}
