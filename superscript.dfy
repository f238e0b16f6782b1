/**
 * The superscript helpers used to print exponents (`2³`): a character-by-character
 * translation through a ten-entry table, and the reverse table.
 */
module Superscript {
  import opened Text

  /** Characters that are values of the forward table (U+2070, U+00B9, U+00B2, U+00B3, U+2074 to U+2079). */
  predicate IsSuperscriptDigit(c: char) {
    c == '\U{2070}' || c == '\U{00B9}' || c == '\U{00B2}' || c == '\U{00B3}' || ('\U{2074}' <= c <= '\U{2079}')
  }

  /** One lookup in the forward table; characters not in it pass through. */
  function SupChar(c: char): (r: char)
    ensures IsDigit(c) ==> IsSuperscriptDigit(r)
    ensures !IsDigit(c) ==> r == c
  {
    match c
    case '0' => '\U{2070}'
    case '1' => '\U{00B9}'
    case '2' => '\U{00B2}'
    case '3' => '\U{00B3}'
    case '4' => '\U{2074}'
    case '5' => '\U{2075}'
    case '6' => '\U{2076}'
    case '7' => '\U{2077}'
    case '8' => '\U{2078}'
    case '9' => '\U{2079}'
    case _ => c
  }

  /** One lookup in the reverse table; characters not in it pass through. */
  function PlainChar(c: char): (r: char)
    ensures IsSuperscriptDigit(c) ==> IsDigit(r)
    ensures !IsSuperscriptDigit(c) ==> r == c
  {
    match c
    case '\U{2070}' => '0'
    case '\U{00B9}' => '1'
    case '\U{00B2}' => '2'
    case '\U{00B3}' => '3'
    case '\U{2074}' => '4'
    case '\U{2075}' => '5'
    case '\U{2076}' => '6'
    case '\U{2077}' => '7'
    case '\U{2078}' => '8'
    case '\U{2079}' => '9'
    case _ => c
  }

  function SuperscriptText(s: string): (r: string)
    ensures |r| == |s|
  {
    if s == [] then [] else [SupChar(s[0])] + SuperscriptText(s[1..])
  }

  function PlainText(s: string): (r: string)
    ensures |r| == |s|
  {
    if s == [] then [] else [PlainChar(s[0])] + PlainText(s[1..])
  }

  /** `toSuperscript(number)`: the decimal text of `number`, each character looked up in the table. */
  function ToSuperscript(n: int): (r: string)
    ensures |r| == |IntToString(n)|
  {
    SuperscriptText(IntToString(n))
  }

  /** `fromSuperscript(text)`. */
  function FromSuperscript(text: string): (r: string)
    ensures |r| == |text|
  {
    PlainText(text)
  }

  /** Each output character is the table image of the input character at the same place. */
  lemma {:induction false} SuperscriptTextAt(s: string, i: nat)
    requires i < |s|
    ensures SuperscriptText(s)[i] == SupChar(s[i])
  {
    if i > 0 {
      SuperscriptTextAt(s[1..], i - 1);
    }
  }

  lemma {:induction false} PlainTextAt(s: string, i: nat)
    requires i < |s|
    ensures PlainText(s)[i] == PlainChar(s[i])
  {
    if i > 0 {
      PlainTextAt(s[1..], i - 1);
    }
  }

  /** Looking a character up forward and then back gives it back, unless it already was a superscript digit. */
  lemma CharRoundTrip(c: char)
    requires !IsSuperscriptDigit(c)
    ensures PlainChar(SupChar(c)) == c
  {
  }

  /** Reading a text back recovers it, provided it held no superscript digit to begin with. */
  lemma {:induction false} TextRoundTrip(s: string)
    requires forall i :: 0 <= i < |s| ==> !IsSuperscriptDigit(s[i])
    ensures PlainText(SuperscriptText(s)) == s
  {
    if s != [] {
      CharRoundTrip(s[0]);
      TextRoundTrip(s[1..]);
    }
  }

  /** The reverse direction: superscripting plain text recovers text that held no plain digit. */
  lemma {:induction false} TextRoundTripReverse(s: string)
    requires forall i :: 0 <= i < |s| ==> !IsDigit(s[i])
    ensures SuperscriptText(PlainText(s)) == s
  {
    if s != [] {
      TextRoundTripReverse(s[1..]);
    }
  }

  /** `fromSuperscript(toSuperscript(n))` is the decimal text of `n`, for every integer. */
  lemma RoundTrip(n: int)
    ensures FromSuperscript(ToSuperscript(n)) == IntToString(n)
  {
    TextRoundTrip(IntToString(n));
  }

  /** Text without table characters passes through both helpers unchanged. */
  lemma {:induction false} PassThrough(s: string)
    requires forall i :: 0 <= i < |s| ==> !IsDigit(s[i]) && !IsSuperscriptDigit(s[i])
    ensures SuperscriptText(s) == s && PlainText(s) == s
  {
    if s != [] {
      PassThrough(s[1..]);
    }
  }
}
