/**
 * The string primitives the generator and the bridge rely on: decimal rendering
 * (Python's str(n), C++'s std::to_string), Python's str.strip and str.replace as the
 * generator uses them, slicing off a trailing separator, joining, and boost's
 * case-insensitive comparison.
 */
module StrUtil {

  predicate IsDigit(c: char) {
    '0' <= c <= '9'
  }

  function DigitChar(d: nat): (c: char)
    requires d < 10
    ensures IsDigit(c)
  {
    ('0' as int + d) as char
  }

  function DigitValue(c: char): (d: nat)
    requires IsDigit(c)
    ensures d < 10
  {
    c as int - '0' as int
  }

  predicate AllDigits(s: string) {
    forall i :: 0 <= i < |s| ==> IsDigit(s[i])
  }

  /** The decimal representation of n, without sign or leading zeros. */
  function NatToString(n: nat): (r: string)
    ensures |r| > 0 && AllDigits(r)
    ensures n < 10 <==> |r| == 1
  {
    if n < 10 then [DigitChar(n)] else NatToString(n / 10) + [DigitChar(n % 10)]
  }

  /** Reads a string of decimal digits back as a number. */
  function ParseDecimal(s: string): nat
    requires AllDigits(s)
  {
    if s == [] then 0 else ParseDecimal(s[..|s| - 1]) * 10 + DigitValue(s[|s| - 1])
  }

  /** Decimal rendering and parsing are inverse: no two numbers render alike. */
  lemma {:induction false} ParseNatToString(n: nat)
    ensures ParseDecimal(NatToString(n)) == n
  {
    if n >= 10 {
      var s := NatToString(n);
      var front := NatToString(n / 10);
      assert s[..|s| - 1] == front;
      ParseNatToString(n / 10);
    }
  }

  lemma NatToStringInjective(m: nat, n: nat)
    requires NatToString(m) == NatToString(n)
    ensures m == n
  {
    ParseNatToString(m);
    ParseNatToString(n);
  }

  /**
   * Behind a common head, digits followed by a non-digit end at the same place: equal texts
   * that each place a run of digits there hold the same digits and the same rest.
   */
  lemma DigitsBeforeDelimiter(head: string, digits: string, tail: string, digits': string, tail': string)
    requires AllDigits(digits) && AllDigits(digits')
    requires tail != [] && !IsDigit(tail[0]) && tail' != [] && !IsDigit(tail'[0])
    requires head + digits + tail == head + digits' + tail'
    ensures digits == digits' && tail == tail'
  {
    var text := head + digits + tail;
    var text' := head + digits' + tail';
    assert digits == text[|head|..|head| + |digits|];
    assert digits' == text'[|head|..|head| + |digits'|];
    assert tail == text[|head| + |digits|..];
    assert tail' == text'[|head| + |digits'|..];
  }

  /** Python's str.isspace, the set of characters str.strip removes. */
  predicate IsSpace(c: char) {
    c == ' ' || c == '\t' || c == '\n' || c == '\r' || c == '\U{0b}' || c == '\U{0c}'
    || ('\U{1c}' <= c <= '\U{1f}') || c == '\U{85}' || c == '\U{a0}' || c == '\U{1680}'
    || ('\U{2000}' <= c <= '\U{200a}') || c == '\U{2028}' || c == '\U{2029}'
    || c == '\U{202f}' || c == '\U{205f}' || c == '\U{3000}'
  }

  function StripLeading(s: string): (r: string)
    ensures r == [] || !IsSpace(r[0])
    ensures |r| <= |s| && r == s[|s| - |r|..]
  {
    if s != [] && IsSpace(s[0]) then StripLeading(s[1..]) else s
  }

  function StripTrailing(s: string): (r: string)
    ensures r == [] || !IsSpace(r[|r| - 1])
    ensures |r| <= |s| && r == s[..|r|]
  {
    if s != [] && IsSpace(s[|s| - 1]) then StripTrailing(s[..|s| - 1]) else s
  }

  /** Python's str.strip() without arguments. */
  function Strip(s: string): string {
    StripTrailing(StripLeading(s))
  }

  /** Stripping a line that has no space at either end removes just its newline. */
  lemma StripLine(body: string)
    requires body != [] && !IsSpace(body[0]) && !IsSpace(body[|body| - 1])
    ensures Strip(body + "\n") == body
  {
    var line := body + "\n";
    assert line[0] == body[0];
    assert StripLeading(line) == line;
    assert line[..|line| - 1] == body;
    assert StripTrailing(line) == StripTrailing(body);
  }

  /** Python's s.replace("\n", "\n\t"): every line after the first gets one more tab. */
  function IndentNewlines(s: string): string {
    if s == [] then []
    else (if s[0] == '\n' then "\n\t" else [s[0]]) + IndentNewlines(s[1..])
  }

  /** Python's s[:-k] for strings at least k long; shorter strings become empty. */
  function DropLast(s: string, k: nat): string {
    if |s| >= k then s[..|s| - k] else []
  }

  /** The pieces one after the other. */
  function Concat(pieces: seq<string>): string {
    if pieces == [] then [] else Concat(pieces[..|pieces| - 1]) + pieces[|pieces| - 1]
  }

  /** Regrouping a concatenation; stated once so that proofs need not unfold long texts. */
  lemma AppendAssoc(a: string, b: string, c: string)
    ensures a + b + c == a + (b + c)
  {
  }

  lemma ConcatAppend(pieces: seq<string>, piece: string)
    ensures Concat(pieces + [piece]) == Concat(pieces) + piece
  {
    assert (pieces + [piece])[..|pieces|] == pieces;
  }

  lemma ConcatTerminatedAppend(pieces: seq<string>, piece: string, sep: string)
    ensures ConcatTerminated(pieces + [piece], sep) == ConcatTerminated(pieces, sep) + piece + sep
  {
    assert (pieces + [piece])[..|pieces|] == pieces;
  }

  /** Every piece followed by the separator, as an accumulation loop appends them. */
  function ConcatTerminated(pieces: seq<string>, sep: string): string {
    if pieces == [] then [] else ConcatTerminated(pieces[..|pieces| - 1], sep) + pieces[|pieces| - 1] + sep
  }

  /** The pieces with the separator between each two of them and nowhere else. */
  function Join(pieces: seq<string>, sep: string): string {
    if pieces == [] then []
    else if |pieces| == 1 then pieces[0]
    else Join(pieces[..|pieces| - 1], sep) + sep + pieces[|pieces| - 1]
  }

  /** One more piece extends the joined list by the separator and that piece. */
  lemma JoinAppend(pieces: seq<string>, piece: string, sep: string)
    requires pieces != []
    ensures Join(pieces + [piece], sep) == Join(pieces, sep) + sep + piece
  {
    var whole := pieces + [piece];
    assert whole[..|whole| - 1] == pieces;
  }

  /**
   * A joined list behind a lead, empty when there is nothing to join, grows by the lead or
   * the separator, whichever comes first, and the new piece.
   */
  lemma LeadJoinAppend(lead: string, pieces: seq<string>, piece: string, sep: string)
    ensures (if pieces == [] then [] else lead + Join(pieces, sep)) + ((if pieces == [] then lead else sep) + piece)
            == lead + Join(pieces + [piece], sep)
  {
    if pieces == [] {
      assert pieces + [piece] == [piece];
    } else {
      JoinAppend(pieces, piece, sep);
      AppendAssoc(lead, Join(pieces, sep), sep + piece);
      AppendAssoc(Join(pieces, sep), sep, piece);
    }
  }

  /** Cutting off the separator just appended restores the string. */
  lemma DropLastOfAppended(x: string, sep: string)
    ensures DropLast(x + sep, |sep|) == x
  {
    assert (x + sep)[..|x|] == x;
  }

  /** A terminated concatenation is the joined list followed by one separator. */
  lemma {:induction false} TerminatedIsJoinedPlusSep(pieces: seq<string>, sep: string)
    requires pieces != []
    ensures ConcatTerminated(pieces, sep) == Join(pieces, sep) + sep
  {
    var n := |pieces|;
    var front := pieces[..n - 1];
    if n == 1 {
      assert front == [];
    } else {
      TerminatedIsJoinedPlusSep(front, sep);
    }
  }

  /**
   * Appending "piece + sep" for every piece and then cutting off the last separator
   * yields the separator-joined list: the trimming idiom of the generator.
   */
  lemma TrimmedIsJoin(prefix: string, pieces: seq<string>, sep: string)
    requires pieces != []
    ensures DropLast(prefix + ConcatTerminated(pieces, sep), |sep|) == prefix + Join(pieces, sep)
  {
    TerminatedIsJoinedPlusSep(pieces, sep);
    assert prefix + ConcatTerminated(pieces, sep) == (prefix + Join(pieces, sep)) + sep;
    DropLastOfAppended(prefix + Join(pieces, sep), sep);
  }

  function ToUpper(c: char): char {
    if 'a' <= c <= 'z' then (c as int - 32) as char else c
  }

  /** boost::iequals: equal length and equal characters after upper-casing. */
  predicate EqualsIgnoreCase(a: string, b: string) {
    |a| == |b| && forall i :: 0 <= i < |a| ==> ToUpper(a[i]) == ToUpper(b[i])
  }
}
