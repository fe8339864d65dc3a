/**
 String helpers with the meaning JavaScript gives them: `trim`, `toLowerCase`,
 `startsWith`, `includes`, `split` on one character, `join`, `replace` and
 decimal rendering of integers. Strings are `seq<char>`.
 */
module Text {

  /** The characters `String.prototype.trim` removes and `\s` matches:
      ECMAScript WhiteSpace and LineTerminator. */
  predicate IsSpace(c: char) {
    || c == ' ' || c == '\t' || c == '\n' || c == '\r'
    || c == '\U{000B}' || c == '\U{000C}' || c == '\U{00A0}' || c == '\U{1680}'
    || ('\U{2000}' <= c <= '\U{200A}')
    || c == '\U{2028}' || c == '\U{2029}' || c == '\U{202F}' || c == '\U{205F}'
    || c == '\U{3000}' || c == '\U{FEFF}'
  }

  /** The characters a regular-expression `.` refuses to match. */
  predicate IsLineTerminator(c: char) {
    c == '\n' || c == '\r' || c == '\U{2028}' || c == '\U{2029}'
  }

  /** Every character of `s` is whitespace (vacuously true of ""). */
  predicate AllSpace(s: string) {
    forall i :: 0 <= i < |s| ==> IsSpace(s[i])
  }

  function TrimStart(s: string): (r: string)
    ensures |r| <= |s| && r == s[|s| - |r|..]
    ensures |r| > 0 ==> !IsSpace(r[0])
    ensures forall i :: 0 <= i < |s| - |r| ==> IsSpace(s[i])
    decreases |s|
  {
    if |s| > 0 && IsSpace(s[0]) then TrimStart(s[1..]) else s
  }

  function TrimEnd(s: string): (r: string)
    ensures |r| <= |s| && r == s[..|r|]
    ensures |r| > 0 ==> !IsSpace(r[|r| - 1])
    ensures forall i :: |r| <= i < |s| ==> IsSpace(s[i])
    decreases |s|
  {
    if |s| > 0 && IsSpace(s[|s| - 1]) then TrimEnd(s[..|s| - 1]) else s
  }

  /** `s` is `r` with a run of whitespace before it (`s[..k]`) and one after it. */
  predicate PaddedAt(s: string, r: string, k: nat) {
    k + |r| <= |s| && r == s[k..k + |r|] && AllSpace(s[..k]) && AllSpace(s[k + |r|..])
  }

  /** `s.trim()`: the text between the leading and the trailing whitespace. */
  function Trim(s: string): (r: string)
    ensures |r| <= |s|
    ensures |r| > 0 ==> !IsSpace(r[0]) && !IsSpace(r[|r| - 1])
    ensures r == "" <==> AllSpace(s)
  {
    TrimEnds(s);
    TrimEnd(TrimStart(s))
  }

  /** The trimmed text is a slice of `s` with nothing but whitespace on either side of it. */
  lemma TrimPadding(s: string)
    ensures exists k :: PaddedAt(s, Trim(s), k)
  {
    TrimIsPadded(s);
    var k := |s| - |TrimStart(s)|;
    assert Trim(s) == TrimEnd(TrimStart(s));
    assert PaddedAt(s, Trim(s), k);
  }

  lemma TrimEnds(s: string)
    ensures var r := TrimEnd(TrimStart(s));
      && (|r| > 0 ==> !IsSpace(r[0]) && !IsSpace(r[|r| - 1]))
      && (r == "" <==> AllSpace(s))
  {
    var t := TrimStart(s);
    var r := TrimEnd(t);
    if r == "" {
      assert AllSpace(t);
      assert t == "";
    } else {
      assert |t| > 0;
      assert !IsSpace(s[|s| - |t|]) by { assert s[|s| - |t|] == t[0]; }
    }
  }

  lemma TrimIsPadded(s: string)
    ensures PaddedAt(s, TrimEnd(TrimStart(s)), |s| - |TrimStart(s)|)
  {
    var t := TrimStart(s);
    var r := TrimEnd(t);
    var k := |s| - |t|;
    LeadingSpace(s);
    TrailingSpace(t);
    SliceOfSuffix(s, t, k, |r|);
    assert AllSpace(s[..k]);
    assert AllSpace(s[k + |r|..]);
    assert r == s[k..k + |r|];
  }

  /** Slicing a suffix `t` of `s` is slicing `s` shifted by where `t` starts. */
  lemma SliceOfSuffix(s: string, t: string, k: nat, n: nat)
    requires k + |t| == |s| && t == s[k..] && n <= |t|
    ensures s[k + n..] == t[n..] && s[k..k + n] == t[..n]
  {
  }

  lemma LeadingSpace(s: string)
    ensures AllSpace(s[..|s| - |TrimStart(s)|])
  {
    var before := s[..|s| - |TrimStart(s)|];
    forall i | 0 <= i < |before| ensures IsSpace(before[i]) {
      assert before[i] == s[i];
    }
  }

  lemma TrailingSpace(t: string)
    ensures AllSpace(t[|TrimEnd(t)|..])
  {
    var after := t[|TrimEnd(t)|..];
    forall i | 0 <= i < |after| ensures IsSpace(after[i]) {
      assert after[i] == t[|TrimEnd(t)| + i];
    }
  }

  /** `s || fallback`: the empty string is falsy, so it gives way to the fallback. */
  function OrDefault(s: string, fallback: string): (r: string)
    ensures |s| > 0 ==> r == s
    ensures |s| == 0 ==> r == fallback
  {
    if |s| > 0 then s else fallback
  }

  /** `s.trim() === ''` — the test the source writes for an empty-looking string. */
  predicate IsBlank(s: string) {
    Trim(s) == ""
  }

  function Lower(c: char): char {
    if 'A' <= c <= 'Z' then (c as int + 32) as char else c
  }

  function Upper(c: char): char {
    if 'a' <= c <= 'z' then (c as int - 32) as char else c
  }

  /** `s.toLowerCase()` on the ASCII letters. */
  function ToLower(s: string): (r: string)
    ensures |r| == |s|
    ensures forall i :: 0 <= i < |s| ==> r[i] == Lower(s[i])
  {
    seq(|s|, i requires 0 <= i < |s| => Lower(s[i]))
  }

  /** `s.toUpperCase()` on the ASCII letters. */
  function ToUpper(s: string): (r: string)
    ensures |r| == |s|
    ensures forall i :: 0 <= i < |s| ==> r[i] == Upper(s[i])
  {
    seq(|s|, i requires 0 <= i < |s| => Upper(s[i]))
  }

  predicate StartsWith(s: string, prefix: string) {
    |prefix| <= |s| && s[..|prefix|] == prefix
  }

  /** `s.includes(sub)`. */
  predicate Contains(s: string, sub: string) {
    exists i :: 0 <= i <= |s| && StartsWith(s[i..], sub)
  }

  /** Only a string at least as long as `sub` can contain it. */
  lemma ContainsIsLonger(s: string, sub: string)
    ensures Contains(s, sub) ==> |sub| <= |s|
  {
    if Contains(s, sub) {
      var i :| 0 <= i <= |s| && StartsWith(s[i..], sub);
    }
  }

  /** `sub` occurs in `s` starting at position `k`. */
  predicate OccursAt(s: string, sub: string, k: nat) {
    k + |sub| <= |s| && s[k..k + |sub|] == sub
  }

  /** Containment is an occurrence at some position. */
  lemma ContainsOccurs(s: string, sub: string)
    ensures Contains(s, sub) <==> exists k: nat :: OccursAt(s, sub, k)
  {
    if Contains(s, sub) {
      var i :| 0 <= i <= |s| && StartsWith(s[i..], sub);
      assert s[i..][..|sub|] == s[i..i + |sub|];
      assert OccursAt(s, sub, i);
    }
    if k: nat :| OccursAt(s, sub, k) {
      assert s[k..][..|sub|] == s[k..k + |sub|];
      assert StartsWith(s[k..], sub);
    }
  }

  /** `s` contains `sub` at position `i`: a convenient way to prove `Contains`. */
  lemma ContainsAt(s: string, sub: string, i: nat)
    requires i + |sub| <= |s| && s[i..i + |sub|] == sub
    ensures Contains(s, sub)
  {
    assert StartsWith(s[i..], sub);
  }

  /** `s.replace(/a/g, b)` for single characters. */
  function ReplaceAll(s: string, a: char, b: char): (r: string)
    ensures |r| == |s|
    ensures forall i :: 0 <= i < |s| ==> r[i] == (if s[i] == a then b else s[i])
  {
    seq(|s|, i requires 0 <= i < |s| => if s[i] == a then b else s[i])
  }

  /** `s.indexOf(a)` for a character that occurs in `s`: the position of its first occurrence. */
  function IndexOf(s: string, a: char): (i: nat)
    requires a in s
    ensures i < |s| && s[i] == a
    ensures a !in s[..i]
    decreases |s|
  {
    if s[0] == a then 0
    else
      assert s == [s[0]] + s[1..];
      var j := IndexOf(s[1..], a);
      assert s[..j + 1] == [s[0]] + s[1..][..j];
      j + 1
  }

  /** `s.replace(a, b)` with a one-character string pattern: only the first occurrence changes. */
  function ReplaceFirst(s: string, a: char, b: char): (r: string)
    ensures |r| == |s|
    ensures a !in s ==> r == s
    ensures a in s ==> r == s[..IndexOf(s, a)] + [b] + s[IndexOf(s, a) + 1..]
    decreases |s|
  {
    if |s| == 0 then s
    else if s[0] == a then [b] + s[1..]
    else
      assert s == [s[0]] + s[1..];
      var r := [s[0]] + ReplaceFirst(s[1..], a, b);
      if a in s then
        var i := IndexOf(s, a);
        assert i == IndexOf(s[1..], a) + 1;
        ConsAround(s, i, b);
        r
      else r
  }

  /** Replacing position `i` of `s` is keeping `s[0]` and replacing position `i - 1` of the rest. */
  lemma ConsAround(s: string, i: nat, b: char)
    requires 1 <= i < |s|
    ensures [s[0]] + (s[1..][..i - 1] + [b] + s[1..][i..]) == s[..i] + [b] + s[i + 1..]
  {
    assert s[..i] == [s[0]] + s[1..][..i - 1];
    assert s[i + 1..] == s[1..][i..];
  }

  /** `parts.join(sep)`. */
  function Join(parts: seq<string>, sep: string): string
    decreases |parts|
  {
    if |parts| == 0 then ""
    else if |parts| == 1 then parts[0]
    else parts[0] + sep + Join(parts[1..], sep)
  }

  /** `s.split(sep)` for a one-character separator: the pieces between separators,
      empty pieces included, never fewer than one piece. */
  function Split(s: string, sep: char): (r: seq<string>)
    ensures |r| >= 1
    ensures forall i :: 0 <= i < |r| ==> sep !in r[i]
    ensures sep !in s ==> r == [s]
    ensures sep in s ==> |r| >= 2
    decreases |s|
  {
    if |s| == 0 then [""]
    else
      var rest := Split(s[1..], sep);
      if s[0] == sep then [""] + rest
      else
        assert s == [s[0]] + s[1..];
        [[s[0]] + rest[0]] + rest[1..]
  }

  /** Joining the pieces of a split with the separator gives back the string. */
  lemma {:induction false} JoinSplit(s: string, sep: char)
    ensures Join(Split(s, sep), [sep]) == s
    decreases |s|
  {
    if |s| > 0 {
      var rest := Split(s[1..], sep);
      JoinSplit(s[1..], sep);
      if s[0] == sep {
        assert Split(s, sep) == [""] + rest;
        assert ([""] + rest)[1..] == rest;
      } else {
        var r := Split(s, sep);
        assert r == [[s[0]] + rest[0]] + rest[1..];
        if |rest| > 1 {
          assert r[1..] == rest[1..];
        }
        assert s == [s[0]] + s[1..];
      }
    }
  }

  /** Splitting a separator-free piece followed by the separator peels off that piece. */
  lemma {:induction false} SplitAfterPiece(p: string, sep: char, t: string)
    requires sep !in p
    ensures Split(p + [sep] + t, sep) == [p] + Split(t, sep)
    decreases |p|
  {
    if |p| == 0 {
      assert p + [sep] + t == [sep] + t;
      assert ([sep] + t)[1..] == t;
    } else {
      var s := p + [sep] + t;
      assert s[1..] == p[1..] + [sep] + t;
      SplitAfterPiece(p[1..], sep, t);
      assert [s[0]] + p[1..] == p;
    }
  }

  /** Splitting the join of separator-free pieces gives back the pieces. */
  lemma {:induction false} SplitJoin(parts: seq<string>, sep: char)
    requires |parts| >= 1
    requires forall i :: 0 <= i < |parts| ==> sep !in parts[i]
    ensures Split(Join(parts, [sep]), sep) == parts
    decreases |parts|
  {
    if |parts| > 1 {
      SplitJoin(parts[1..], sep);
      SplitAfterPiece(parts[0], sep, Join(parts[1..], [sep]));
      assert parts == [parts[0]] + parts[1..];
    }
  }

  function DigitChar(d: nat): (c: char)
    requires d < 10
    ensures '0' <= c <= '9'
  {
    ('0' as int + d) as char
  }

  predicate IsDigit(c: char) {
    '0' <= c <= '9'
  }

  predicate AllDigits(s: string) {
    forall i :: 0 <= i < |s| ==> IsDigit(s[i])
  }

  /** `String(n)` for a non-negative integer: its decimal digits, most significant first. */
  function NatToString(n: nat): (r: string)
    ensures |r| >= 1 && AllDigits(r)
    ensures |r| > 1 ==> r[0] != '0'
  {
    if n < 10 then [DigitChar(n)] else NatToString(n / 10) + [DigitChar(n % 10)]
  }

  /** The number a string of decimal digits denotes. */
  function DigitsValue(s: string): nat
    requires AllDigits(s)
  {
    if |s| == 0 then 0
    else DigitsValue(s[..|s| - 1]) * 10 + (s[|s| - 1] as int - '0' as int)
  }

  /** Reading back the decimal rendering gives the number. */
  lemma {:induction false} NatToStringRoundTrip(n: nat)
    ensures DigitsValue(NatToString(n)) == n
  {
    if n >= 10 {
      NatToStringRoundTrip(n / 10);
      var r := NatToString(n);
      assert r[..|r| - 1] == NatToString(n / 10);
    }
  }

  /** Different numbers render differently. */
  lemma NatToStringInjective(a: nat, b: nat)
    requires NatToString(a) == NatToString(b)
    ensures a == b
  {
    NatToStringRoundTrip(a);
    NatToStringRoundTrip(b);
  }

  /** `String(n)` for any integer: a leading "-" for negatives, then the magnitude's decimal
      digits with no leading zero. */
  function IntToString(n: int): (r: string)
    ensures |r| >= 1
    ensures n < 0 <==> r[0] == '-'
    ensures var digits := if n < 0 then r[1..] else r;
      && |digits| >= 1 && AllDigits(digits)
      && (|digits| > 1 ==> digits[0] != '0')
      && DigitsValue(digits) == if n < 0 then -n else n
  {
    if n < 0 then
      NatToStringRoundTrip(-n);
      assert ("-" + NatToString(-n))[1..] == NatToString(-n);
      "-" + NatToString(-n)
    else
      NatToStringRoundTrip(n);
      NatToString(n)
  }
}
