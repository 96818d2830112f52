// The file-index parser: the index of a mixture file is the integer written after the last
// "mix_" of its name and before the first "_no" that follows.
module Content {
  import opened Wrappers

  /** Whether `sep` occurs in `s` starting at position `i`. */
  predicate OccursAt(s: string, sep: string, i: nat) {
    i + |sep| <= |s| && s[i..i + |sep|] == sep
  }

  predicate Contains(s: string, sep: string) {
    exists i: nat :: i <= |s| && OccursAt(s, sep, i)
  }

  /** The first occurrence of `sep` in `s` at or after `from`. */
  function FindFrom(s: string, sep: string, from: nat): (r: Option<nat>)
    requires |sep| > 0 && from <= |s|
    ensures r.Some? ==> from <= r.value && OccursAt(s, sep, r.value)
    ensures r.Some? ==> forall j: nat :: from <= j < r.value ==> !OccursAt(s, sep, j)
    ensures r.None? ==> forall j: nat :: from <= j ==> !OccursAt(s, sep, j)
    decreases |s| - from
  {
    if from + |sep| > |s| then None
    else if OccursAt(s, sep, from) then Some(from)
    else FindFrom(s, sep, from + 1)
  }

  /** `s.split(sep)` for a non-empty separator: cut at each occurrence, scanning left to right. */
  function Split(s: string, sep: string): (r: seq<string>)
    requires |sep| > 0
    ensures |r| >= 1
    ensures forall k :: 0 <= k < |r| ==> !Contains(r[k], sep)
    decreases |s|
  {
    match FindFrom(s, sep, 0)
    case None =>
      BeforeFirst(s, sep, |s|);
      assert s[..|s|] == s;
      [s]
    case Some(i) =>
      BeforeFirst(s, sep, i);
      [s[..i]] + Split(s[i + |sep|..], sep)
  }

  /** The text before the first occurrence of `sep` has no occurrence of it. */
  lemma BeforeFirst(s: string, sep: string, i: nat)
    requires |sep| > 0 && i <= |s|
    requires forall j: nat :: j < i ==> !OccursAt(s, sep, j)
    ensures !Contains(s[..i], sep)
  {
    forall j: nat | OccursAt(s[..i], sep, j)
      ensures false
    {
      assert s[..i][j..j + |sep|] == s[j..j + |sep|];
      assert OccursAt(s, sep, j);
    }
  }

  /** `sep.join(parts)`. */
  function Join(parts: seq<string>, sep: string): string
    requires |parts| >= 1
  {
    if |parts| == 1 then parts[0] else parts[0] + sep + Join(parts[1..], sep)
  }

  function Last(parts: seq<string>): string
    requires |parts| >= 1
  {
    parts[|parts| - 1]
  }

  /** Joining the pieces of a split with its separator gives back the original string. */
  lemma {:induction false} JoinSplit(s: string, sep: string)
    requires |sep| > 0
    ensures Join(Split(s, sep), sep) == s
    decreases |s|
  {
    var f := FindFrom(s, sep, 0);
    if f.Some? {
      var i := f.value;
      var rest := s[i + |sep|..];
      JoinSplit(rest, sep);
      SplitAt(s, sep, i);
      var parts := Split(s, sep);
      assert parts[0] == s[..i] && parts[1..] == Split(rest, sep);
      assert Join(parts, sep) == s[..i] + sep + Join(Split(rest, sep), sep);
      assert s == s[..i] + s[i..i + |sep|] + rest;
    }
  }

  /** The first piece is a prefix without `sep`, followed by `sep` unless it is the whole string. */
  lemma FirstPiece(s: string, sep: string)
    requires |sep| > 0
    ensures var f := Split(s, sep)[0];
            && f == s[..|f|] && !Contains(f, sep)
            && (f == s || OccursAt(s, sep, |f|))
  {
    match FindFrom(s, sep, 0)
    case None =>
    case Some(i) =>
  }

  /** Without an occurrence of `sep` there is nothing to cut. */
  lemma NoOccurrence(s: string, sep: string)
    requires |sep| > 0 && FindFrom(s, sep, 0).None?
    ensures !Contains(s, sep) && Split(s, sep) == [s]
  {
  }

  /** After the first cut at `i`, the last piece is the last piece of what follows the separator. */
  lemma SplitAt(s: string, sep: string, i: nat)
    requires |sep| > 0 && FindFrom(s, sep, 0) == Some(i)
    ensures Split(s, sep) == [s[..i]] + Split(s[i + |sep|..], sep)
    ensures Last(Split(s, sep)) == Last(Split(s[i + |sep|..], sep))
  {
    assert Split(s, sep) == [s[..i]] + Split(s[i + |sep|..], sep);
  }

  lemma OccursShift(s: string, sep: string, off: nat, k: nat)
    requires off <= |s| && OccursAt(s[off..], sep, k)
    ensures OccursAt(s, sep, off + k)
  {
    assert s[off..][k..k + |sep|] == s[off + k..off + k + |sep|];
  }

  lemma SuffixShift(s: string, off: nat, l: string)
    requires off <= |s| && |l| <= |s| - off && l == s[off..][|s| - off - |l|..]
    ensures l == s[|s| - |l|..]
  {
  }

  /** What the last piece `l` of `s` is: a suffix without `sep`, after a `sep` unless it is all of `s`. */
  predicate LastPieceOf(s: string, sep: string, l: string) {
    && |l| <= |s| && l == s[|s| - |l|..] && !Contains(l, sep)
    && (l == s || (|l| + |sep| <= |s| && OccursAt(s, sep, |s| - |l| - |sep|)))
  }

  /** The last piece of what follows the first separator is also the last piece of the whole. */
  lemma LastPieceStep(s: string, sep: string, i: nat, l: string)
    requires |sep| > 0 && OccursAt(s, sep, i)
    requires LastPieceOf(s[i + |sep|..], sep, l)
    ensures LastPieceOf(s, sep, l)
  {
    var off := i + |sep|;
    var rest := s[off..];
    SuffixShift(s, off, l);
    if l == rest {
      assert |s| - |l| - |sep| == i;
    } else {
      OccursShift(s, sep, off, |rest| - |l| - |sep|);
    }
  }

  /** The last piece is a suffix without `sep`, preceded by `sep` unless it is the whole string. */
  lemma {:induction false} LastPiece(s: string, sep: string)
    requires |sep| > 0
    ensures LastPieceOf(s, sep, Last(Split(s, sep)))
    decreases |s|
  {
    var f := FindFrom(s, sep, 0);
    if f.None? {
      NoOccurrence(s, sep);
    } else {
      var i := f.value;
      LastPiece(s[i + |sep|..], sep);
      SplitAt(s, sep, i);
      LastPieceStep(s, sep, i, Last(Split(s[i + |sep|..], sep)));
    }
  }

  /** A separator whose first character does not reappear in it cannot overlap itself. */
  predicate FirstCharUnique(sep: string) {
    |sep| > 0 && forall d :: 0 < d < |sep| ==> sep[d] != sep[0]
  }

  lemma NoSplit(b: string, sep: string)
    requires |sep| > 0 && !Contains(b, sep)
    ensures Split(b, sep) == [b]
  {
    match FindFrom(b, sep, 0)
    case None =>
    case Some(j) =>
  }

  /** For a separator that cannot overlap itself, the last piece is what follows its last occurrence. */
  lemma {:induction false} LastPieceAfterSeparator(a: string, sep: string, b: string)
    requires FirstCharUnique(sep) && !Contains(b, sep)
    ensures Last(Split(a + sep + b, sep)) == b
    decreases |a|
  {
    var s := a + sep + b;
    assert s[|a|..|a| + |sep|] == sep;
    assert OccursAt(s, sep, |a|);
    var i := FindFrom(s, sep, 0).value;
    assert i <= |a|;
    var rest := s[i + |sep|..];
    SplitAt(s, sep, i);
    if i == |a| {
      assert rest == b;
      NoSplit(b, sep);
    } else {
      OverlapImpossible(s, sep, i, |a|);
      var a' := a[i + |sep|..];
      assert rest == a' + sep + b;
      LastPieceAfterSeparator(a', sep, b);
    }
  }

  /** Two occurrences of such a separator are at least its length apart. */
  lemma OverlapImpossible(s: string, sep: string, i: nat, j: nat)
    requires FirstCharUnique(sep) && OccursAt(s, sep, i) && OccursAt(s, sep, j) && i < j
    ensures i + |sep| <= j
  {
    assert s[j..j + |sep|][0] == s[j];
    assert forall k :: i <= k < i + |sep| ==> s[k] == s[i..i + |sep|][k - i];
  }

  /** The first piece is all of the text before a separator none of whose characters start it. */
  lemma FirstPieceBeforeSeparator(text: string, sep: string, s: string)
    requires |sep| > 0 && forall j :: 0 <= j < |text| ==> text[j] != sep[0]
    ensures Split(text + sep + s, sep)[0] == text
  {
    var whole := text + sep + s;
    assert whole[|text|..|text| + |sep|] == sep;
    assert OccursAt(whole, sep, |text|);
    assert whole[..|text|] == text;
  }

  // ----- int()

  datatype ParseError = InvalidLiteral

  /** The ASCII characters `str.isspace` accepts: tab to carriage return, the four separators, space. */
  predicate IsSpace(c: char) {
    9 <= c as int <= 13 || 28 <= c as int <= 32
  }

  predicate IsDigit(c: char) {
    '0' <= c <= '9'
  }

  function StripLeft(s: string): (r: string)
    ensures |r| <= |s| && r == s[|s| - |r|..] && (|r| > 0 ==> !IsSpace(r[0]))
  {
    if |s| > 0 && IsSpace(s[0]) then StripLeft(s[1..]) else s
  }

  function StripRight(s: string): (r: string)
    ensures |r| <= |s| && r == s[..|r|] && (|r| > 0 ==> !IsSpace(r[|r| - 1]))
  {
    if |s| > 0 && IsSpace(s[|s| - 1]) then StripRight(s[..|s| - 1]) else s
  }

  /** Digits with single underscores between them, as an integer literal may be written. */
  predicate DigitGroups(s: string) {
    && |s| > 0 && IsDigit(s[0]) && IsDigit(s[|s| - 1])
    && (forall i :: 0 <= i < |s| ==> IsDigit(s[i]) || s[i] == '_')
    && (forall i :: 0 <= i < |s| - 1 ==> s[i] == '_' ==> s[i + 1] != '_')
  }

  predicate AllDigits(s: string) {
    forall i :: 0 <= i < |s| ==> IsDigit(s[i])
  }

  /** The literal without its underscores. */
  function Digits(s: string): (r: string)
    requires forall i :: 0 <= i < |s| ==> IsDigit(s[i]) || s[i] == '_'
    ensures AllDigits(r)
    ensures AllDigits(s) ==> r == s
  {
    if s == [] then []
    else (if s[0] == '_' then [] else [s[0]]) + Digits(s[1..])
  }

  function DigitValue(c: char): (d: nat)
    requires IsDigit(c)
    ensures d < 10
  {
    c as int - '0' as int
  }

  function DigitsValue(s: string): nat
    requires AllDigits(s)
  {
    if s == [] then 0 else DigitsValue(s[..|s| - 1]) * 10 + DigitValue(s[|s| - 1])
  }

  /** `s.strip()` for the whitespace above. */
  function Strip(s: string): (r: string)
    ensures |r| <= |s| && (|r| > 0 ==> !IsSpace(r[0]) && !IsSpace(r[|r| - 1]))
  {
    StripRight(StripLeft(s))
  }

  /** The text after an optional leading sign. */
  function Unsigned(t: string): string {
    if |t| > 0 && (t[0] == '-' || t[0] == '+') then t[1..] else t
  }

  /** An optional sign and a decimal literal (leading zeros and single underscores between digits allowed). */
  function ParseLiteral(t: string): (r: Result<int, ParseError>)
    ensures r.Ok? <==> DigitGroups(Unsigned(t))
  {
    if !DigitGroups(Unsigned(t)) then Err(InvalidLiteral)
    else
      var v: int := DigitsValue(Digits(Unsigned(t)));
      Ok(if |t| > 0 && t[0] == '-' then -v else v)
  }

  /** `int(s)`: surrounding whitespace dropped, then a literal; anything else is a ValueError. */
  function ParseInt(s: string): (r: Result<int, ParseError>)
    ensures r.Ok? ==> |Strip(s)| > 0
  {
    ParseLiteral(Strip(s))
  }

  function DigitChar(d: nat): (c: char)
    requires d < 10
    ensures IsDigit(c) && DigitValue(c) == d
  {
    ('0' as int + d) as char
  }

  /** `str(n)` for a non-negative integer. */
  function Decimal(n: nat): (s: string)
    ensures |s| > 0 && AllDigits(s)
  {
    if n < 10 then [DigitChar(n)] else Decimal(n / 10) + [DigitChar(n % 10)]
  }

  lemma {:induction false} DecimalValue(n: nat)
    ensures DigitsValue(Decimal(n)) == n
  {
    if n >= 10 {
      DecimalValue(n / 10);
      var s := Decimal(n);
      assert s[..|s| - 1] == Decimal(n / 10);
    }
  }

  lemma StripDigits(s: string)
    requires |s| > 0 && AllDigits(s)
    ensures Strip(s) == s
  {
    assert !IsSpace(s[0]) && !IsSpace(s[|s| - 1]);
  }

  /** A plain string of digits is a literal whose value is their decimal value. */
  lemma LiteralDigits(s: string)
    requires |s| > 0 && AllDigits(s)
    ensures ParseLiteral(s) == Ok(DigitsValue(s))
  {
    assert IsDigit(s[0]) && Unsigned(s) == s;
    assert DigitGroups(s) by {
      assert forall i :: 0 <= i < |s| ==> s[i] != '_';
    }
  }

  /** `int(str(n)) == n`. */
  lemma ParseDecimal(n: nat)
    ensures ParseInt(Decimal(n)) == Ok(n)
  {
    DecimalValue(n);
    DigitTextValue(Decimal(n));
  }

  /** An empty literal is rejected. */
  lemma ParseEmpty()
    ensures ParseInt("").Err?
  {
  }

  // ----- get_file_index

  const Mix := "mix_"
  const No := "_no"

  /**
   * The text `get_file_index` hands to `int()`: it is read after the last "mix_" (from the start
   * of a name without one) and stops before the first "_no" after that (or at the end).
   */
  function IndexText(name: string): (text: string)
    ensures var after := Last(Split(name, Mix));
            && LastPieceOf(name, Mix, after)
            && |text| <= |after| && text == after[..|text|] && !Contains(text, No)
            && (text == after || OccursAt(after, No, |text|))
  {
    LastPiece(name, Mix);
    FirstPiece(Last(Split(name, Mix)), No);
    Split(Last(Split(name, Mix)), No)[0]
  }

  /** A non-empty run of plain digits is read as its decimal value. */
  lemma DigitTextValue(s: string)
    ensures |s| > 0 && AllDigits(s) ==> ParseInt(s) == Ok(DigitsValue(s))
  {
    if |s| > 0 && AllDigits(s) {
      StripDigits(s);
      LiteralDigits(s);
    }
  }

  /**
   * The file index: a ValueError unless the index text, stripped and without its sign, is a
   * decimal literal; plain digits give their decimal value.
   */
  function GetFileIndex(name: string): (r: Result<int, ParseError>)
    ensures r.Ok? <==> DigitGroups(Unsigned(Strip(IndexText(name))))
    ensures var text := IndexText(name);
            |text| > 0 && AllDigits(text) ==> r == Ok(DigitsValue(text))
  {
    DigitTextValue(IndexText(name));
    ParseInt(Split(Last(Split(name, Mix)), No)[0])
  }

  lemma NoMixInTail(text: string, s: string)
    requires AllDigits(text) && !Contains(s, Mix)
    ensures !Contains(text + No + s, Mix)
  {
    var rest := text + No + s;
    forall j: nat | OccursAt(rest, Mix, j)
      ensures false
    {
      assert rest[j] == rest[j..j + |Mix|][0] == 'm';
      if j >= |text| + |No| {
        var k := j - |text| - |No|;
        assert rest[j..j + |Mix|] == s[k..k + |Mix|];
        assert OccursAt(s, Mix, k);
      }
    }
  }

  /** A name written as `p + "mix_" + text + "_no" + s`, with `text` all digits, yields `text`. */
  lemma IndexTextOfDigits(p: string, text: string, s: string)
    requires AllDigits(text) && !Contains(s, Mix)
    ensures IndexText(p + Mix + text + No + s) == text
  {
    var rest := text + No + s;
    NoMixInTail(text, s);
    assert p + Mix + text + No + s == p + Mix + rest;
    assert FirstCharUnique(Mix);
    LastPieceAfterSeparator(p, Mix, rest);
    FirstPieceBeforeSeparator(text, No, s);
  }

  /** Round trip: the index written into a file name is the index read back. */
  lemma FileIndexRoundTrip(p: string, n: nat, s: string)
    requires !Contains(s, Mix)
    ensures GetFileIndex(p + Mix + Decimal(n) + No + s) == Ok(n)
  {
    IndexTextOfDigits(p, Decimal(n), s);
    ParseDecimal(n);
  }

  /** A name with nothing between "mix_" and "_no" is a ValueError. */
  lemma EmptyIndexFails(p: string, s: string)
    requires !Contains(s, Mix)
    ensures GetFileIndex(p + Mix + No + s).Err?
  {
    IndexTextOfDigits(p, "", s);
    assert p + Mix + "" + No + s == p + Mix + No + s;
    ParseEmpty();
  }
}
