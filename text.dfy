/**
 * The string operations the FEN codec relies on, as the standard library
 * defines them: splitting on Unicode white space, splitting on one
 * separator, joining, and decimal parsing and printing of unsigned 32-bit
 * integers.
 */
module Text {
  import opened Seqs

  /** Unicode White_Space, the set `char::is_whitespace` accepts. */
  predicate IsWhitespace(c: char) {
    || c == ' ' || ('\t' <= c <= '\r')
    || c == '\U{85}' || c == '\U{A0}' || c == '\U{1680}'
    || ('\U{2000}' <= c <= '\U{200A}')
    || c == '\U{2028}' || c == '\U{2029}' || c == '\U{202F}' || c == '\U{205F}' || c == '\U{3000}'
  }

  predicate NoWhitespace(s: string) {
    forall k :: 0 <= k < |s| ==> !IsWhitespace(s[k])
  }

  /** The longest prefix of `s` without white space. */
  function TakeWord(s: string): (w: string)
    ensures |w| <= |s| && w == s[..|w|] && NoWhitespace(w)
    ensures |w| < |s| ==> IsWhitespace(s[|w|])
    ensures s != [] && !IsWhitespace(s[0]) ==> |w| > 0
  {
    if s == [] || IsWhitespace(s[0]) then [] else [s[0]] + TakeWord(s[1..])
  }

  /** `split_whitespace`: the maximal runs of non-white-space characters, in order. */
  function Words(s: string): seq<string>
    decreases |s|
  {
    if s == [] then []
    else if IsWhitespace(s[0]) then Words(s[1..])
    else
      var w := TakeWord(s);
      [w] + Words(s[|w|..])
  }

  /** `parts` with `sep` between consecutive parts. */
  function Join(parts: seq<string>, sep: string): string
    decreases |parts|
  {
    if |parts| == 0 then ""
    else if |parts| == 1 then parts[0]
    else parts[0] + sep + Join(parts[1..], sep)
  }

  /** The prefix of `s` before the first `c`. */
  function BeforeChar(s: string, c: char): (w: string)
    ensures |w| <= |s| && w == s[..|w|] && c !in w
    ensures |w| < |s| ==> s[|w|] == c
  {
    if s == [] || s[0] == c then [] else [s[0]] + BeforeChar(s[1..], c)
  }

  /** `split(c)`: the pieces between occurrences of `c`, empty ones included; never empty. */
  function Split(s: string, c: char): (parts: seq<string>)
    ensures |parts| >= 1
    decreases |s|
  {
    var w := BeforeChar(s, c);
    if |w| == |s| then [s] else [w] + Split(s[|w| + 1..], c)
  }

  /** `trim_end_matches(c)`: `s` without any trailing `c`. */
  function TrimEnd(s: string, c: char): (t: string)
    ensures |t| <= |s| && t == s[..|t|]
    ensures |t| > 0 ==> t[|t| - 1] != c
    ensures forall k :: |t| <= k < |s| ==> s[k] == c
    decreases |s|
  {
    if s != [] && s[|s| - 1] == c then TrimEnd(s[..|s| - 1], c) else s
  }

  // ----------------------------------------------------------------- numbers

  predicate IsDigit(c: char) {
    '0' <= c <= '9'
  }

  function DigitValue(c: char): nat
    requires IsDigit(c)
  {
    c as int - '0' as int
  }

  function DigitChar(d: nat): char
    requires d < 10
  {
    ('0' as int + d) as char
  }

  predicate AllDigits(s: string) {
    forall k :: 0 <= k < |s| ==> IsDigit(s[k])
  }

  /** The value of a string of decimal digits. */
  function DecimalValue(s: string): nat
    requires AllDigits(s)
    decreases |s|
  {
    if s == [] then 0 else 10 * DecimalValue(s[..|s| - 1]) + DigitValue(s[|s| - 1])
  }

  const U32Limit: nat := 0x1_0000_0000

  /** The digits of an optionally '+'-signed literal. */
  function Unsigned(s: string): string {
    if |s| > 0 && s[0] == '+' then s[1..] else s
  }

  /** What `parse::<u32>` accepts: an optional '+', one or more digits, and a value below 2^32. */
  predicate IsU32Literal(s: string) {
    var d := Unsigned(s);
    |d| > 0 && AllDigits(d) && DecimalValue(d) < U32Limit
  }

  function ParseU32(s: string): (n: nat)
    requires IsU32Literal(s)
    ensures n < U32Limit
  {
    DecimalValue(Unsigned(s))
  }

  /** `to_string` of a natural number: its decimal digits, without leading zeros. */
  function NatToString(n: nat): (s: string)
    ensures |s| > 0 && AllDigits(s)
  {
    if n < 10 then [DigitChar(n)] else NatToString(n / 10) + [DigitChar(n % 10)]
  }

  // ------------------------------------------------------------------ lemmas

  /** Printing and parsing a number below 2^32 gives it back. */
  lemma {:induction false} NatToStringParses(n: nat)
    ensures DecimalValue(NatToString(n)) == n
    ensures NatToString(n)[0] != '+' && NoWhitespace(NatToString(n))
    ensures n < U32Limit ==> IsU32Literal(NatToString(n)) && ParseU32(NatToString(n)) == n
  {
    var s := NatToString(n);
    if n >= 10 {
      NatToStringParses(n / 10);
      assert s[..|s| - 1] == NatToString(n / 10);
    }
  }

  /** A single digit prints as that digit. */
  lemma SmallNatToString(n: nat)
    requires n < 10
    ensures NatToString(n) == [DigitChar(n)]
  {
  }

  lemma {:induction false} TakeWordOfPrefix(w: string, t: string)
    requires NoWhitespace(w)
    requires t == [] || IsWhitespace(t[0])
    ensures TakeWord(w + t) == w
    decreases |w|
  {
    if w != [] {
      assert (w + t)[1..] == w[1..] + t;
      TakeWordOfPrefix(w[1..], t);
    } else {
      assert w + t == t;
    }
  }

  /** A word followed by a space and the rest splits into the word and the rest's words. */
  lemma WordsCons(w: string, rest: string)
    requires |w| > 0 && NoWhitespace(w)
    ensures Words(w + " " + rest) == [w] + Words(rest)
  {
    var s := w + " " + rest;
    assert s == w + (" " + rest);
    TakeWordOfPrefix(w, " " + rest);
    assert s[|w|..] == " " + rest;
    assert (" " + rest)[1..] == rest;
  }

  lemma WordsSingle(w: string)
    requires |w| > 0 && NoWhitespace(w)
    ensures Words(w) == [w]
  {
    TakeWordOfPrefix(w, []);
    assert w + [] == w;
  }

  /** Words separated by single spaces split back into those words. */
  lemma {:induction false} WordsOfJoin(fields: seq<string>)
    requires forall k :: 0 <= k < |fields| ==> |fields[k]| > 0 && NoWhitespace(fields[k])
    ensures Words(Join(fields, " ")) == fields
    decreases |fields|
  {
    if |fields| == 1 {
      WordsSingle(fields[0]);
    } else if |fields| > 1 {
      WordsOfJoin(fields[1..]);
      WordsCons(fields[0], Join(fields[1..], " "));
      assert [fields[0]] + fields[1..] == fields;
    }
  }

  lemma {:induction false} BeforeCharOfPrefix(w: string, t: string, c: char)
    requires c !in w
    requires t == [] || t[0] == c
    ensures BeforeChar(w + t, c) == w
    decreases |w|
  {
    if w != [] {
      assert (w + t)[1..] == w[1..] + t;
      BeforeCharOfPrefix(w[1..], t, c);
    } else {
      assert w + t == t;
    }
  }

  /** Pieces without the separator, joined by it, split back into those pieces. */
  lemma {:induction false} SplitOfJoin(parts: seq<string>, c: char)
    requires |parts| >= 1
    requires forall k :: 0 <= k < |parts| ==> c !in parts[k]
    ensures Split(Join(parts, [c]), c) == parts
    decreases |parts|
  {
    if |parts| == 1 {
      BeforeCharOfPrefix(parts[0], [], c);
      assert parts[0] + [] == parts[0];
    } else {
      var w, rest := parts[0], Join(parts[1..], [c]);
      var s := Join(parts, [c]);
      assert s == w + [c] + rest;
      AppendAssoc(w, [c], rest);
      BeforeCharOfPrefix(w, [c] + rest, c);
      assert s[|w| + 1..] == rest;
      assert Split(s, c) == [w] + Split(rest, c);
      SplitOfJoin(parts[1..], c);
      assert [w] + parts[1..] == parts;
    }
  }

  /** Joined pieces without white space, separated by a character that is not white space, have none. */
  lemma {:induction false} JoinNoWhitespace(parts: seq<string>, sep: string)
    requires forall k :: 0 <= k < |parts| ==> NoWhitespace(parts[k])
    requires NoWhitespace(sep)
    ensures NoWhitespace(Join(parts, sep))
    decreases |parts|
  {
    if |parts| > 1 {
      JoinNoWhitespace(parts[1..], sep);
    }
  }

  /** Every character of a join is a character of a piece or of the separator. */
  lemma {:induction false} JoinChars(parts: seq<string>, sep: string, x: char)
    requires x in Join(parts, sep)
    ensures x in sep || exists k :: 0 <= k < |parts| && x in parts[k]
    decreases |parts|
  {
    if |parts| > 1 {
      var rest := Join(parts[1..], sep);
      if x !in parts[0] && x !in sep {
        assert x in rest;
        JoinChars(parts[1..], sep, x);
        var k :| 0 <= k < |parts[1..]| && x in parts[1..][k];
        assert x in parts[k + 1];
      }
    }
  }

  /** Trimming a separator from a string that ends in exactly one of them drops just that one. */
  lemma TrimOneSeparator(s: string, c: char)
    requires |s| >= 2 && s[|s| - 1] == c && s[|s| - 2] != c
    ensures TrimEnd(s, c) == s[..|s| - 1]
  {
    assert s[..|s| - 1][|s| - 2] == s[|s| - 2];
  }

  /** A join whose first piece is not empty is not empty. */
  lemma JoinNonEmpty(parts: seq<string>, sep: string)
    requires |parts| >= 1 && |parts[0]| > 0
    ensures |Join(parts, sep)| > 0
  {
  }

  /** Joining one more piece appends the separator and that piece. */
  lemma {:induction false} JoinSnoc(parts: seq<string>, x: string, sep: string)
    requires |parts| >= 1
    ensures Join(parts + [x], sep) == Join(parts, sep) + sep + x
    decreases |parts|
  {
    assert (parts + [x])[1..] == parts[1..] + [x];
    if |parts| > 1 {
      JoinSnoc(parts[1..], x, sep);
    }
  }
}
