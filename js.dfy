/**
 * The few JavaScript value semantics the components rely on: optional
 * props and their truthiness, `String.prototype.split`/`Array.prototype.join`
 * on a one-character separator, `startsWith`/`endsWith`, the decimal
 * rendering of a whole number in a template literal, `parseInt(s, 10)` and
 * the time clip applied by `new Date(n)`.
 */
module Js {

  datatype Option<+T> = None | Some(value: T)

  /** `o` as a condition: an optional string prop is truthy iff it is present and non-empty. */
  predicate Truthy(o: Option<string>)
  {
    o.Some? && o.value != ""
  }

  /** `o || d` for an optional string. */
  function OrElse(o: Option<string>, d: string): string
  {
    if Truthy(o) then o.value else d
  }

  predicate StartsWith(s: string, prefix: string)
  {
    |prefix| <= |s| && s[..|prefix|] == prefix
  }

  predicate EndsWith(s: string, suffix: string)
  {
    |suffix| <= |s| && s[|s| - |suffix|..] == suffix
  }

  // ---------------------------------------------------------------------------
  // split / join on one character

  /** `s.split(sep)`: the pieces between separators, empty pieces included. */
  function Split(s: string, sep: char): (parts: seq<string>)
    ensures |parts| >= 1
    decreases |s|
  {
    if |s| == 0 then [""]
    else
      var rest := Split(s[1..], sep);
      if s[0] == sep then [""] + rest
      else [[s[0]] + rest[0]] + rest[1..]
  }

  /** `parts.join(sep)`; the join of no parts is the empty string. */
  function Join(parts: seq<string>, sep: char): string
  {
    if |parts| == 0 then ""
    else if |parts| == 1 then parts[0]
    else parts[0] + [sep] + Join(parts[1..], sep)
  }

  /** No piece of a split contains the separator. */
  lemma {:induction false} SplitPiecesHaveNoSeparator(s: string, sep: char)
    ensures forall i :: 0 <= i < |Split(s, sep)| ==> sep !in Split(s, sep)[i]
    decreases |s|
  {
    if |s| > 0 {
      SplitPiecesHaveNoSeparator(s[1..], sep);
      var rest := Split(s[1..], sep);
      if s[0] != sep {
        assert sep !in rest[0];
        assert sep !in [s[0]] + rest[0];
      }
    }
  }

  /** A split has more than one piece iff the separator occurs. */
  lemma {:induction false} SplitCount(s: string, sep: char)
    ensures |Split(s, sep)| > 1 <==> sep in s
    decreases |s|
  {
    if |s| > 0 {
      SplitCount(s[1..], sep);
      assert sep in s <==> s[0] == sep || sep in s[1..] by {
        assert s == [s[0]] + s[1..];
      }
    }
  }

  /** Joining the pieces of a split with the same separator gives the string back. */
  lemma {:induction false} JoinSplit(s: string, sep: char)
    ensures Join(Split(s, sep), sep) == s
    decreases |s|
  {
    if |s| > 0 {
      var rest := Split(s[1..], sep);
      JoinSplit(s[1..], sep);
      if s[0] == sep {
        assert ([""] + rest)[1..] == rest;
        assert Join([""] + rest, sep) == "" + [sep] + Join(rest, sep);
        assert s == [s[0]] + s[1..];
      } else {
        var parts := [[s[0]] + rest[0]] + rest[1..];
        assert parts[1..] == rest[1..];
        if |rest| == 1 {
          assert Join(parts, sep) == [s[0]] + rest[0];
          assert Join(rest, sep) == rest[0];
        } else {
          assert Join(rest, sep) == rest[0] + [sep] + Join(rest[1..], sep);
          assert Join(parts, sep) == [s[0]] + rest[0] + [sep] + Join(rest[1..], sep);
        }
        assert s == [s[0]] + s[1..];
      }
    }
  }

  /** `s.split(sep)[0]`, the text before the first separator. */
  function FirstPiece(s: string, sep: char): string
  {
    Split(s, sep)[0]
  }

  /** `s.split(sep).slice(1).join(sep)`, the text after the first separator. */
  function RestPieces(s: string, sep: char): string
  {
    Join(Split(s, sep)[1..], sep)
  }

  /**
   * The first piece and the rest put back together around one separator
   * give the string; with no separator the first piece is the whole string
   * and the rest is empty.
   */
  lemma FirstAndRest(s: string, sep: char)
    ensures sep !in FirstPiece(s, sep)
    ensures sep in s ==> FirstPiece(s, sep) + [sep] + RestPieces(s, sep) == s
    ensures sep !in s ==> FirstPiece(s, sep) == s && RestPieces(s, sep) == ""
  {
    var parts := Split(s, sep);
    SplitPiecesHaveNoSeparator(s, sep);
    SplitCount(s, sep);
    JoinSplit(s, sep);
    if sep in s {
      assert Join(parts, sep) == parts[0] + [sep] + Join(parts[1..], sep);
    } else {
      assert |parts| == 1;
      assert parts[1..] == [];
    }
  }

  /**
   * The converse: a separator-free word, the separator and any rest split
   * back into that word and that rest. With `FirstAndRest` this makes the
   * first-piece/rest decomposition unique.
   */
  lemma {:induction false} FirstAndRestOf(word: string, sep: char, rest: string)
    requires sep !in word
    ensures FirstPiece(word + [sep] + rest, sep) == word
    ensures RestPieces(word + [sep] + rest, sep) == rest
    decreases |word|
  {
    var s := word + [sep] + rest;
    if |word| == 0 {
      assert s == [sep] + rest;
      assert s[1..] == rest;
      JoinSplit(rest, sep);
    } else {
      assert s[1..] == word[1..] + [sep] + rest;
      FirstAndRestOf(word[1..], sep, rest);
      assert s[0] == word[0] && word == [word[0]] + word[1..];
    }
  }

  /**
   * The first piece is a prefix of `s`, and when it is shorter than `s` the
   * separator follows it.
   */
  lemma FirstPieceIsPrefix(s: string, sep: char)
    ensures |FirstPiece(s, sep)| <= |s| && s[..|FirstPiece(s, sep)|] == FirstPiece(s, sep)
    ensures |FirstPiece(s, sep)| < |s| ==> s[|FirstPiece(s, sep)|] == sep
    ensures |FirstPiece(s, sep)| == |s| ==> sep !in s
  {
    FirstAndRest(s, sep);
    var f := FirstPiece(s, sep);
    if sep in s {
      assert s == f + [sep] + RestPieces(s, sep);
      assert s[..|f|] == f;
      assert s[|f|] == sep;
    }
  }

  /** A prefix of `s` free of the separator is also a prefix of the first piece. */
  lemma FirstPieceKeepsPrefix(s: string, sep: char, p: string)
    requires StartsWith(s, p) && sep !in p
    ensures StartsWith(FirstPiece(s, sep), p)
  {
    FirstPieceIsPrefix(s, sep);
    var f := FirstPiece(s, sep);
    assert f[..|p|] == s[..|p|];
  }

  // ---------------------------------------------------------------------------
  // numbers as text

  predicate IsDigit(c: char)
  {
    '0' <= c <= '9'
  }

  predicate AllDigits(s: string)
  {
    forall i :: 0 <= i < |s| ==> IsDigit(s[i])
  }

  function DigitChar(d: nat): (c: char)
    requires d < 10
    ensures IsDigit(c) && (c as int) - ('0' as int) == d
  {
    (('0' as int) + d) as char
  }

  /** The decimal text of a whole number, as a template literal renders it. */
  function NatToString(n: nat): (s: string)
    ensures |s| >= 1 && AllDigits(s)
    decreases n
  {
    if n < 10 then [DigitChar(n)] else NatToString(n / 10) + [DigitChar(n % 10)]
  }

  /** The value of a string of decimal digits, most significant first. */
  function DigitsValue(ds: string): nat
    requires AllDigits(ds)
    decreases |ds|
  {
    if |ds| == 0 then 0
    else DigitsValue(ds[..|ds| - 1]) * 10 + ((ds[|ds| - 1] as int) - ('0' as int))
  }

  /** The longest run of decimal digits at the front of `s`. */
  function LeadingDigits(s: string): (ds: string)
    ensures AllDigits(ds) && |ds| <= |s| && ds == s[..|ds|]
    ensures |ds| < |s| ==> !IsDigit(s[|ds|])
    decreases |s|
  {
    if |s| > 0 && IsDigit(s[0]) then [s[0]] + LeadingDigits(s[1..]) else ""
  }

  /**
   * The characters `parseInt` skips before the number: the ECMAScript
   * StrWhiteSpaceChar set (tab, vertical tab, form feed, the byte-order mark,
   * the line terminators and every Unicode space separator).
   */
  predicate IsJsWhitespace(c: char)
  {
    || c == '\t' || c == '\U{000B}' || c == '\U{000C}' || c == '\U{FEFF}'
    || c == '\n' || c == '\r' || c == '\U{2028}' || c == '\U{2029}'
    || c == ' ' || c == '\U{00A0}' || c == '\U{1680}'
    || ('\U{2000}' <= c <= '\U{200A}')
    || c == '\U{202F}' || c == '\U{205F}' || c == '\U{3000}'
  }

  function TrimStart(s: string): (t: string)
    ensures |t| <= |s| && t == s[|s| - |t|..]
    ensures |t| > 0 ==> !IsJsWhitespace(t[0])
    decreases |s|
  {
    if |s| > 0 && IsJsWhitespace(s[0]) then TrimStart(s[1..]) else s
  }

  /** A JavaScript number as far as these components see one: an integer or NaN. */
  datatype JsNumber = Num(n: int) | NaN

  /**
   * `parseInt(s, 10)`: skip leading white space, take an optional sign, then
   * the longest run of decimal digits; no digits gives NaN.
   */
  function ParseInt(s: string): JsNumber
  {
    var t := TrimStart(s);
    var negative := |t| > 0 && t[0] == '-';
    var body := if |t| > 0 && (t[0] == '-' || t[0] == '+') then t[1..] else t;
    var ds := LeadingDigits(body);
    if |ds| == 0 then NaN
    else if negative then Num(-(DigitsValue(ds) as int))
    else Num(DigitsValue(ds))
  }

  lemma {:induction false} DigitsValueOfNatToString(n: nat)
    ensures DigitsValue(NatToString(n)) == n
    decreases n
  {
    var s := NatToString(n);
    if n >= 10 {
      DigitsValueOfNatToString(n / 10);
      assert s[..|s| - 1] == NatToString(n / 10);
    }
  }

  lemma {:induction false} LeadingDigitsOfDigitsThen(ds: string, rest: string)
    requires AllDigits(ds)
    requires |rest| > 0 ==> !IsDigit(rest[0])
    ensures LeadingDigits(ds + rest) == ds
    decreases |ds|
  {
    if |ds| > 0 {
      assert (ds + rest)[1..] == ds[1..] + rest;
      LeadingDigitsOfDigitsThen(ds[1..], rest);
      assert ds == [ds[0]] + ds[1..];
    } else {
      assert ds + rest == rest;
    }
  }

  /**
   * Reading back a rendered whole number: `parseInt` of its decimal text,
   * followed by anything that does not start with a digit, is the number.
   */
  lemma ParseIntOfNatToString(n: nat, rest: string)
    requires |rest| > 0 ==> !IsDigit(rest[0])
    ensures ParseInt(NatToString(n) + rest) == Num(n)
  {
    ParseIntOfDigitsThen(NatToString(n), rest);
    DigitsValueOfNatToString(n);
  }

  /** `parseInt` of digits followed by anything not starting with a digit is their value. */
  lemma ParseIntOfDigitsThen(ds: string, rest: string)
    requires |ds| > 0 && AllDigits(ds)
    requires |rest| > 0 ==> !IsDigit(rest[0])
    ensures ParseInt(ds + rest) == Num(DigitsValue(ds))
  {
    var s := ds + rest;
    assert s[0] == ds[0];
    assert !IsJsWhitespace(s[0]);
    assert TrimStart(s) == s;
    LeadingDigitsOfDigitsThen(ds, rest);
  }

  // ---------------------------------------------------------------------------
  // Date

  /** The largest magnitude, in milliseconds from the epoch, a Date can hold. */
  const MaxTimeValue: int := 8_640_000_000_000_000

  /** A Date: either a valid time in epoch milliseconds or Invalid Date. */
  datatype TimeValue = Time(ms: int) | InvalidDate

  /** `new Date(x)` for a number `x` (the TimeClip of ECMAScript section 21.4.1.31). */
  function DateOf(x: JsNumber): (d: TimeValue)
    ensures d.Time? <==> x.Num? && -MaxTimeValue <= x.n <= MaxTimeValue
    ensures d.Time? ==> d.ms == x.n
  {
    if x.Num? && -MaxTimeValue <= x.n <= MaxTimeValue then Time(x.n) else InvalidDate
  }
}
