/**
 The composite cursor of api/pagination.py: "score:id", or "null:id" for a row without a
 score. Base64 is an invertible coat around this text and is not modelled.
*/
module Cursors {
  import opened Common
  import opened Text

  datatype Error = NotAPair | NotAnInteger

  datatype Cursor = Cursor(sortValue: Option<string>, id: int)

  // ---- decimal integers -------------------------------------------------------

  predicate IsDigit(c: char) {
    '0' <= c <= '9'
  }

  function Digit(d: nat): (c: char)
    requires d < 10
    ensures IsDigit(c)
  {
    '0' + d as char
  }

  function NatText(n: nat): (s: string)
    ensures s != ""
  {
    if n < 10 then [Digit(n)] else NatText(n / 10) + [Digit(n % 10)]
  }

  /** str(n) */
  function IntText(n: int): string {
    if n < 0 then "-" + NatText(-n) else NatText(n)
  }

  /** Digits, with single underscores allowed between them. */
  function ParseDigits(s: string): Option<nat>
    decreases |s|
  {
    if s == "" || !IsDigit(s[|s| - 1]) then None else
    var front, d := s[..|s| - 1], (s[|s| - 1] - '0') as nat;
    if front == "" then Some(d) else
    match ParseDigits(if front[|front| - 1] == '_' then front[..|front| - 1] else front)
    case None => None
    case Some(n) => Some(10 * n + d)
  }

  /** int(s): surrounding whitespace and one sign are allowed; anything else is an error. */
  function ParseInt(s: string): Option<int> {
    var t := Strip(s);
    var (negative, signed) := (t != "" && t[0] == '-', t != "" && t[0] in "+-");
    match ParseDigits(if signed then t[1..] else t)
    case None => None
    case Some(n) => var value: int := n; Some(if negative then -value else value)
  }

  lemma {:induction false} DigitsRoundTrip(n: nat)
    ensures ParseDigits(NatText(n)) == Some(n)
    ensures forall i :: 0 <= i < |NatText(n)| ==> IsDigit(NatText(n)[i])
  {
    if n >= 10 {
      DigitsRoundTrip(n / 10);
      var s := NatText(n);
      assert s[..|s| - 1] == NatText(n / 10);
    }
  }

  lemma StripVisible(s: string)
    requires s != "" && !IsSpace(s[0]) && !IsSpace(s[|s| - 1])
    ensures Strip(s) == s
  {
  }

  /** str(n) is digits, after a sign if n is negative. */
  lemma IntTextShape(n: int)
    ensures var s := IntText(n);
            && s != "" && (IsDigit(s[0]) || s[0] == '-') && IsDigit(s[|s| - 1])
            && (s[0] == '-' <==> n < 0)
            && (if n < 0 then s[1..] == NatText(-n) else s == NatText(n))
            && ':' !in s && s != "null"
  {
    DigitsRoundTrip(if n < 0 then -n else n);
    var s := IntText(n);
    if n < 0 {
      assert s[|s| - 1] == NatText(-n)[|s| - 2];
    }
  }

  lemma IntRoundTrip(n: int)
    ensures ParseInt(IntText(n)) == Some(n)
  {
    IntTextShape(n);
    StripVisible(IntText(n));
    DigitsRoundTrip(if n < 0 then -n else n);
  }

  /** Digits with single underscores between them. */
  predicate IsDigits(s: string) {
    && s != "" && '0' <= s[0] <= '9' && '0' <= s[|s| - 1] <= '9'
    && forall i :: 0 < i < |s| ==> DigitAt(s, i)
  }

  predicate DigitAt(s: string, i: int)
    requires 0 < i < |s|
  {
    '0' <= s[i] <= '9' || (s[i] == '_' && s[i - 1] != '_')
  }

  lemma DigitsFront(s: string, front: string, rest: string)
    requires |s| > 1 && front == s[..|s| - 1] && '0' <= s[|s| - 1] <= '9'
    requires rest == if front[|front| - 1] == '_' then front[..|front| - 1] else front
    ensures IsDigits(s) <==> rest != "" && IsDigits(rest)
  {
    if IsDigits(rest) {
      forall i | 0 < i < |s|
        ensures DigitAt(s, i)
      {
        if i < |rest| {
          assert DigitAt(rest, i);
        } else if i < |s| - 1 {
          assert s[i] == '_' && s[i - 1] == rest[|rest| - 1];
        }
      }
    }
    if IsDigits(s) {
      if |s| > 2 {
        assert DigitAt(s, |s| - 2);
      }
      if |s| > 3 {
        assert DigitAt(s, |s| - 3);
      }
      forall i | 0 < i < |rest|
        ensures DigitAt(rest, i)
      {
        assert DigitAt(s, i);
      }
    }
  }

  /** Exactly such texts are numbers. */
  lemma {:induction false} ParseDigitsExactly(s: string)
    ensures ParseDigits(s).Some? <==> IsDigits(s)
    decreases |s|
  {
    if |s| > 1 && IsDigit(s[|s| - 1]) {
      var front := s[..|s| - 1];
      var rest := if front[|front| - 1] == '_' then front[..|front| - 1] else front;
      DigitsFront(s, front, rest);
      ParseDigitsExactly(rest);
    }
  }

  /** One more digit, after an underscore or not, is one more decimal place. */
  lemma NextDigit(s: string, n: nat, c: char)
    requires '0' <= c <= '9'
    ensures ParseDigits([c]) == Some((c - '0') as nat)
    ensures ParseDigits(s) == Some(n) ==>
      ParseDigits(s + [c]) == Some(10 * n + (c - '0') as nat) == ParseDigits(s + "_" + [c])
  {
    if ParseDigits(s) == Some(n) {
      assert (s + [c])[..|s|] == s;
      assert (s + "_" + [c])[..|s| + 1] == s + "_" && (s + "_")[..|s|] == s;
      assert s[|s| - 1] != '_';
    }
  }

  /** An integer is digits with at most one sign before them, and blanks around both. */
  lemma IntExactly(s: string)
    ensures var t := Strip(s);
            && (ParseInt(s).Some? <==> IsDigits(t) || (t != "" && (t[0] == '+' || t[0] == '-') && IsDigits(t[1..])))
            && (IsDigits(t) ==> ParseDigits(t).Some? && ParseInt(s) == Some(ParseDigits(t).value))
            && (t != "" && t[0] == '+' && IsDigits(t[1..]) ==>
                  ParseDigits(t[1..]).Some? && ParseInt(s) == Some(ParseDigits(t[1..]).value))
            && (t != "" && t[0] == '-' && IsDigits(t[1..]) ==>
                  ParseDigits(t[1..]).Some? && ParseInt(s) == Some(0 - (ParseDigits(t[1..]).value as int)))
  {
    var t := Strip(s);
    ParseDigitsExactly(t);
    if t != "" {
      ParseDigitsExactly(t[1..]);
    }
  }

  // ---- the cursor -------------------------------------------------------------

  function Encode(sortValue: Option<int>, id: int): string {
    (match sortValue case None => "null" case Some(v) => IntText(v)) + ":" + IntText(id)
  }

  /** rsplit(":", 1): the text around the last colon, if there is one. */
  function SplitLast(s: string): Option<(string, string)>
    decreases |s|
  {
    if s == "" then None else
    var front, last := s[..|s| - 1], s[|s| - 1];
    if last == ':' then Some((front, "")) else
    match SplitLast(front)
    case None => None
    case Some(parts) => Some((parts.0, parts.1 + [last]))
  }

  function Decode(text: string): Result<Cursor, Error> {
    match SplitLast(text)
    case None => Err(NotAPair)
    case Some((left, right)) =>
      match ParseInt(right)
      case None => Err(NotAnInteger)
      case Some(id) => Ok(Cursor(if left == "null" then None else Some(left), id))
  }

  lemma {:induction false} SplitJoined(left: string, right: string)
    requires ':' !in right
    ensures SplitLast(left + ":" + right) == Some((left, right))
    decreases |right|
  {
    var s := left + ":" + right;
    if right == "" {
      assert s[..|s| - 1] == left;
    } else {
      var front := right[..|right| - 1];
      assert s[..|s| - 1] == left + ":" + front && right == front + [s[|s| - 1]];
      SplitJoined(left, front);
    }
  }

  /** A text without a colon is refused; with one, the split puts it back together at the last colon. */
  lemma {:induction false} SplitLastMeaning(s: string)
    ensures SplitLast(s).None? <==> ':' !in s
    ensures SplitLast(s).Some? ==>
              var (left, right) := SplitLast(s).value;
              s == left + ":" + right && ':' !in right
    decreases |s|
  {
    if s != "" {
      var front, last := s[..|s| - 1], s[|s| - 1];
      assert s == front + [last];
      SplitLastMeaning(front);
    }
  }

  /** What a cursor says: the score or "null" before the last colon, the id after it; anything else is refused. */
  lemma CursorText(sortValue: Option<int>, id: int, left: string, right: string)
    requires ':' !in right
    ensures Encode(None, id) == "null:" + IntText(id)
    ensures forall v :: Encode(Some(v), id) == IntText(v) + ":" + IntText(id)
    ensures Decode(left + ":" + right)
         == if ParseInt(right).None? then Err(NotAnInteger)
            else Ok(Cursor(if left == "null" then None else Some(left), ParseInt(right).value))
    ensures Decode(right) == Err(NotAPair)
  {
    assert "null" + ":" == "null:";
    SplitJoined(left, right);
    SplitLastMeaning(right);
  }

  /** Decoding an encoded cursor gives back the score, NULL included, and the id. */
  lemma CursorRoundTrip(sortValue: Option<int>, id: int)
    ensures Decode(Encode(sortValue, id))
         == Ok(Cursor(match sortValue case None => None case Some(v) => Some(IntText(v)), id))
    ensures sortValue.Some? ==> ParseInt(IntText(sortValue.value)) == sortValue
  {
    IntRoundTrip(id);
    IntTextShape(id);
    SplitJoined(match sortValue case None => "null" case Some(v) => IntText(v), IntText(id));
    if sortValue.Some? {
      IntRoundTrip(sortValue.value);
      IntTextShape(sortValue.value);
    }
  }
}
