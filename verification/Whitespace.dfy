/** What the two languages and JSON take for white space, and what trimming it leaves. */
module Whitespace {

  type Strip = string -> string

  predicate IsSeparator(c: char) {
    c in {' ', '\U{A0}', '\U{1680}', '\U{202F}', '\U{205F}', '\U{3000}'} || '\U{2000}' <= c <= '\U{200A}'
  }

  /** Python's `str.isspace` */
  predicate IsPySpace(c: char) {
    || IsSeparator(c) || '\t' <= c <= '\r' || '\U{1C}' <= c <= '\U{1F}'
    || c in {'\U{85}', '\U{2028}', '\U{2029}'}
  }

  /** WhiteSpace and LineTerminator of ECMAScript */
  predicate IsJsSpace(c: char) {
    IsSeparator(c) || '\t' <= c <= '\r' || c in {'\U{FEFF}', '\U{2028}', '\U{2029}'}
  }

  /** Section 2 of RFC 8259 */
  predicate IsJsonSpace(c: char) {
    c in {' ', '\t', '\n', '\r'}
  }

  predicate IsBlank(c: char) {
    IsPySpace(c) || IsJsSpace(c)
  }

  function TrimLeft(s: string, space: char -> bool): string {
    if s != "" && space(s[0]) then TrimLeft(s[1..], space) else s
  }

  function TrimRight(s: string, space: char -> bool): string {
    if s != "" && space(s[|s| - 1]) then TrimRight(s[..|s| - 1], space) else s
  }

  function Trim(s: string, space: char -> bool): string {
    TrimRight(TrimLeft(s, space), space)
  }

  /** `str.strip` */
  function PyStrip(s: string): string { Trim(s, IsPySpace) }

  /** `String.prototype.trim` */
  function JsTrim(s: string): string { Trim(s, IsJsSpace) }

  function JsonTrim(s: string): string { Trim(s, IsJsonSpace) }

  predicate All(s: string, space: char -> bool) {
    forall c :: c in s ==> space(c)
  }

  /** Not empty, and blank in no sense at either end. */
  predicate Solid(s: string) {
    s != "" && !IsBlank(s[0]) && !IsBlank(s[|s| - 1])
  }

  /** Trimming removes space only, and leaves none at the ends. */
  lemma {:induction false} TrimParts(s: string, space: char -> bool) returns (left: string, right: string)
    ensures s == left + Trim(s, space) + right && All(left, space) && All(right, space)
    ensures var t := Trim(s, space); t != "" ==> !space(t[0]) && !space(t[|t| - 1])
  {
    var rest := TrimLeft(s, space);
    left := TrimLeftParts(s, space);
    right := TrimRightParts(rest, space);
    var t := Trim(s, space);
    if t != "" {
      assert t[0] == rest[0];
    }
    assert left + (t + right) == left + t + right;
  }

  lemma {:induction false} TrimLeftParts(s: string, space: char -> bool) returns (left: string)
    ensures s == left + TrimLeft(s, space) && All(left, space)
    ensures var t := TrimLeft(s, space); t != "" ==> !space(t[0])
  {
    if s != "" && space(s[0]) {
      var more := TrimLeftParts(s[1..], space);
      left := [s[0]] + more;
    } else {
      left := "";
    }
  }

  lemma {:induction false} TrimRightParts(s: string, space: char -> bool) returns (right: string)
    ensures s == TrimRight(s, space) + right && All(right, space)
    ensures var t := TrimRight(s, space); t != "" ==> !space(t[|t| - 1])
  {
    if s != "" && space(s[|s| - 1]) {
      var more := TrimRightParts(s[..|s| - 1], space);
      right := more + [s[|s| - 1]];
    } else {
      right := "";
    }
  }

  lemma {:induction false} TrimLeftOf(left: string, t: string, space: char -> bool)
    requires All(left, space) && t != "" && !space(t[0])
    ensures TrimLeft(left + t, space) == t
  {
    if left == "" {
      assert left + t == t;
    } else {
      assert (left + t)[1..] == left[1..] + t;
      TrimLeftOf(left[1..], t, space);
    }
  }

  lemma {:induction false} TrimRightOf(t: string, right: string, space: char -> bool)
    requires All(right, space) && t != "" && !space(t[|t| - 1])
    ensures TrimRight(t + right, space) == t
  {
    if right == "" {
      assert t + right == t;
    } else {
      var n := |right| - 1;
      assert (t + right)[..|t + right| - 1] == t + right[..n] && (t + right)[|t + right| - 1] == right[n];
      TrimRightOf(t, right[..n], space);
    }
  }

  /** What is left when nothing but space surrounds it. */
  lemma {:induction false} TrimOf(left: string, t: string, right: string, space: char -> bool)
    requires All(left, space) && All(right, space) && t != "" && !space(t[0]) && !space(t[|t| - 1])
    ensures Trim(left + t + right, space) == t
  {
    assert left + t + right == left + (t + right);
    TrimLeftOf(left, t + right, space);
    TrimRightOf(t, right, space);
  }

  /** A solid text that one kind of trimming finds is found by every wider kind. */
  lemma {:induction false} WiderTrim(s: string, narrow: char -> bool, wide: char -> bool)
    requires Solid(Trim(s, narrow))
    requires forall c :: (narrow(c) ==> wide(c)) && (wide(c) ==> IsBlank(c))
    ensures Trim(s, wide) == Trim(s, narrow)
  {
    var left, right := TrimParts(s, narrow);
    TrimOf(left, Trim(s, narrow), right, wide);
  }

  /** Two kinds of trimming that both find a solid text find the same one. */
  lemma {:induction false} SolidIsUnique(s: string, one: char -> bool, other: char -> bool)
    requires Solid(Trim(s, one)) && Solid(Trim(s, other))
    requires forall c :: one(c) || other(c) ==> IsBlank(c)
    ensures Trim(s, one) == Trim(s, other)
  {
    WiderTrim(s, one, IsBlank);
    WiderTrim(s, other, IsBlank);
  }

}
