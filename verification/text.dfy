/**
 * The few JavaScript string operations the sharing code relies on:
 * `startsWith`, `trim()` emptiness, `split` on one character, and the
 * decimal rendering of a counter in a template literal.
 */
module Text {

  predicate StartsWith(s: string, prefix: string) {
    |prefix| <= |s| && s[..|prefix|] == prefix
  }

  /** The characters `String.prototype.trim` removes: ECMAScript white space and line terminators. */
  predicate IsJsWhitespace(c: char) {
    c == '\t' || c == '\n' || c == '\U{000B}' || c == '\U{000C}' || c == '\r' || c == ' ' ||
    c == '\U{00A0}' || c == '\U{1680}' || ('\U{2000}' <= c <= '\U{200A}') ||
    c == '\U{2028}' || c == '\U{2029}' || c == '\U{202F}' || c == '\U{205F}' ||
    c == '\U{3000}' || c == '\U{FEFF}'
  }

  /** `s.trim()` is the empty string exactly when every character is white space. */
  predicate Blank(s: string) {
    forall i :: 0 <= i < |s| ==> IsJsWhitespace(s[i])
  }

  function DigitChar(d: nat): (c: char)
    requires d < 10
    ensures '0' <= c <= '9' && c as int - '0' as int == d
  {
    ['0', '1', '2', '3', '4', '5', '6', '7', '8', '9'][d]
  }

  /** Decimal rendering of a natural number, as a template literal prints it. */
  function NatToString(n: nat): (s: string)
    ensures |s| >= 1
    ensures forall i :: 0 <= i < |s| ==> '0' <= s[i] <= '9'
    ensures DigitsValue(s) == n
    ensures |s| > 1 ==> s[0] != '0'
  {
    if n < 10 then [DigitChar(n)]
    else NatToString(n / 10) + [DigitChar(n % 10)]
  }

  /** The number a string of decimal digits denotes. */
  function DigitsValue(s: string): int
  {
    if s == [] then 0 else 10 * DigitsValue(s[..|s| - 1]) + (s[|s| - 1] as int - '0' as int)
  }

  /** The pieces joined back together with the separator between them. */
  function Join(pieces: seq<string>, sep: char): string
  {
    if |pieces| <= 1 then (if pieces == [] then "" else pieces[0])
    else Join(pieces[..|pieces| - 1], sep) + [sep] + pieces[|pieces| - 1]
  }

  /** `s.split(sep)` for a one-character separator: maximal separator-free pieces. */
  function Split(s: string, sep: char): (pieces: seq<string>)
    ensures |pieces| >= 1
    ensures forall i :: 0 <= i < |pieces| ==> sep !in pieces[i]
    ensures Join(pieces, sep) == s
  {
    if s == [] then [""]
    else
      var init := Split(s[..|s| - 1], sep);
      var last := s[|s| - 1];
      if last == sep then
        assert s == s[..|s| - 1] + [sep] + "";
        init + [""]
      else
        var pieces := init[..|init| - 1] + [init[|init| - 1] + [last]];
        JoinAppendChar(init, sep, last);
        assert s == s[..|s| - 1] + [last];
        pieces
  }

  /** Appending a character to the last piece appends it to the joined string. */
  lemma JoinAppendChar(pieces: seq<string>, sep: char, c: char)
    requires |pieces| >= 1
    ensures Join(pieces[..|pieces| - 1] + [pieces[|pieces| - 1] + [c]], sep) == Join(pieces, sep) + [c]
  {
    var q := pieces[..|pieces| - 1] + [pieces[|pieces| - 1] + [c]];
    if |pieces| > 1 {
      assert q[..|q| - 1] == pieces[..|pieces| - 1];
    }
  }

  /** Splitting after one more character: a separator opens an empty piece, anything else extends the last piece. */
  lemma SplitSnoc(s: string, sep: char, c: char)
    ensures c == sep ==> Split(s + [c], sep) == Split(s, sep) + [""]
    ensures c != sep ==>
      Split(s + [c], sep) == Split(s, sep)[..|Split(s, sep)| - 1] + [Split(s, sep)[|Split(s, sep)| - 1] + [c]]
  {
    assert (s + [c])[..|s + [c]| - 1] == s;
  }

  /** Splitting a join of separator-free pieces gives the pieces back. */
  lemma {:induction false} SplitJoin(pieces: seq<string>, sep: char)
    requires |pieces| >= 1
    requires forall i :: 0 <= i < |pieces| ==> sep !in pieces[i]
    ensures Split(Join(pieces, sep), sep) == pieces
    decreases |pieces|, |pieces[|pieces| - 1]|
  {
    var last := pieces[|pieces| - 1];
    if last == [] {
      if |pieces| > 1 {
        SplitJoin(pieces[..|pieces| - 1], sep);
        SplitJoinEmptyLast(pieces, sep);
      }
    } else {
      SplitJoinLonger(pieces, sep);
    }
  }

  /** The inductive step of SplitJoin when the last piece is empty: one more separator. */
  lemma SplitJoinEmptyLast(pieces: seq<string>, sep: char)
    requires |pieces| > 1 && pieces[|pieces| - 1] == []
    requires Split(Join(pieces[..|pieces| - 1], sep), sep) == pieces[..|pieces| - 1]
    ensures Split(Join(pieces, sep), sep) == pieces
  {
    var init := pieces[..|pieces| - 1];
    SplitSnoc(Join(init, sep), sep, sep);
    assert Join(pieces, sep) == Join(init, sep) + [sep];
    assert pieces == init + [""];
  }

  /** The inductive step of SplitJoin when the last piece is not empty. */
  lemma {:induction false} SplitJoinLonger(pieces: seq<string>, sep: char)
    requires |pieces| >= 1 && |pieces[|pieces| - 1]| >= 1
    requires forall i :: 0 <= i < |pieces| ==> sep !in pieces[i]
    ensures Split(Join(pieces, sep), sep) == pieces
    decreases |pieces|, |pieces[|pieces| - 1]|, 0
  {
    var shorter := DropLastChar(pieces, sep);
    SplitJoin(shorter, sep);
    AppendLastChar(shorter, pieces, sep);
  }

  /** The pieces with the last character of the last piece removed, still separator-free. */
  function DropLastChar(pieces: seq<string>, sep: char): (shorter: seq<string>)
    requires |pieces| >= 1 && |pieces[|pieces| - 1]| >= 1
    requires forall i :: 0 <= i < |pieces| ==> sep !in pieces[i]
    ensures |shorter| == |pieces| && |shorter[|shorter| - 1]| < |pieces[|pieces| - 1]|
    ensures shorter[..|shorter| - 1] == pieces[..|pieces| - 1]
    ensures shorter[|shorter| - 1] + [pieces[|pieces| - 1][|pieces[|pieces| - 1]| - 1]] == pieces[|pieces| - 1]
    ensures forall i :: 0 <= i < |shorter| ==> sep !in shorter[i]
  {
    var last := pieces[|pieces| - 1];
    var front := last[..|last| - 1];
    var shorter := pieces[..|pieces| - 1] + [front];
    assert sep !in front by {
      assert forall x :: x in front ==> x in last;
    }
    assert forall i :: 0 <= i < |shorter| ==> sep !in shorter[i] by {
      forall i | 0 <= i < |shorter| ensures sep !in shorter[i] {
        if i < |pieces| - 1 { assert shorter[i] == pieces[i]; }
      }
    }
    assert shorter[..|shorter| - 1] == pieces[..|pieces| - 1];
    shorter
  }

  /** Re-appending the dropped character to both the pieces and the joined string. */
  lemma AppendLastChar(shorter: seq<string>, pieces: seq<string>, sep: char)
    requires |shorter| == |pieces| >= 1 && |pieces[|pieces| - 1]| >= 1
    requires shorter[..|shorter| - 1] == pieces[..|pieces| - 1]
    requires shorter[|shorter| - 1] + [pieces[|pieces| - 1][|pieces[|pieces| - 1]| - 1]] == pieces[|pieces| - 1]
    requires sep !in pieces[|pieces| - 1]
    requires Split(Join(shorter, sep), sep) == shorter
    ensures Split(Join(pieces, sep), sep) == pieces
  {
    var last := pieces[|pieces| - 1];
    var c := last[|last| - 1];
    assert c != sep;
    JoinAppendChar(shorter, sep, c);
    var q := shorter[..|shorter| - 1] + [shorter[|shorter| - 1] + [c]];
    forall i | 0 <= i < |q| ensures q[i] == pieces[i] {
      if i < |q| - 1 {
        assert q[i] == shorter[..|shorter| - 1][i] == pieces[..|pieces| - 1][i];
      }
    }
    assert q == pieces;
    var joined := Join(shorter, sep);
    assert Join(pieces, sep) == joined + [c];
    SplitSnoc(joined, sep, c);
  }
}
