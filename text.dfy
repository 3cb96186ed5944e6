/**
 * The JavaScript string and number primitives the core relies on:
 * `trim`, `split` on one character, `join`, `toUpperCase` restricted to ASCII,
 * `Number.prototype.toString` on integers and `parseInt` without a radix.
 */
module Text {
  import opened Common

  // ---------------------------------------------------------------------------
  // Whitespace and trimming

  /** ECMAScript WhiteSpace and LineTerminator code points, the set `trim` and `parseInt` skip. */
  predicate IsSpace(c: char) {
    var n := c as int;
    (9 <= n <= 13) || n == 0x20 || n == 0xA0 || n == 0x1680 || (0x2000 <= n <= 0x200A)
    || n == 0x2028 || n == 0x2029 || n == 0x202F || n == 0x205F || n == 0x3000 || n == 0xFEFF
  }

  predicate IsBlank(s: string) {
    forall i :: 0 <= i < |s| ==> IsSpace(s[i])
  }

  /** `String.prototype.trimStart`: drops the leading whitespace and nothing else. */
  function TrimStart(s: string): (r: string)
    ensures |r| <= |s| && r == s[|s| - |r|..]
    ensures forall i :: 0 <= i < |s| - |r| ==> IsSpace(s[i])
    ensures r != [] ==> !IsSpace(r[0])
    decreases |s|
  {
    if s != [] && IsSpace(s[0]) then TrimStart(s[1..]) else s
  }

  /** `String.prototype.trimEnd`: drops the trailing whitespace and nothing else. */
  function TrimEnd(s: string): (r: string)
    ensures |r| <= |s| && r == s[..|r|]
    ensures forall i :: |r| <= i < |s| ==> IsSpace(s[i])
    ensures r != [] ==> !IsSpace(r[|r| - 1])
    decreases |s|
  {
    if s != [] && IsSpace(s[|s| - 1]) then TrimEnd(s[..|s| - 1]) else s
  }

  /** `String.prototype.trim`. */
  function Trim(s: string): (r: string)
    ensures r != [] ==> !IsSpace(r[0]) && !IsSpace(r[|r| - 1])
    ensures r == [] <==> IsBlank(s)
  {
    var t := TrimEnd(TrimStart(s));
    TrimBlank(s, t);
    t
  }

  lemma TrimBlank(s: string, r: string)
    requires r == TrimEnd(TrimStart(s))
    ensures r == [] <==> IsBlank(s)
    ensures r != [] ==> !IsSpace(r[0]) && !IsSpace(r[|r| - 1])
  {
    var t := TrimStart(s);
    assert r != [] ==> r[0] == t[0];
    if r == [] {
      assert t == [];
    } else {
      assert !IsSpace(s[|s| - |t|]);
    }
  }

  lemma TrimNoSpaceEnds(s: string)
    requires s == [] || (!IsSpace(s[0]) && !IsSpace(s[|s| - 1]))
    ensures Trim(s) == s
  {
  }

  /** Trimming twice is trimming once. */
  lemma {:induction false} TrimIdempotent(s: string)
    ensures Trim(Trim(s)) == Trim(s)
  {
    TrimNoSpaceEnds(Trim(s));
  }

  // ---------------------------------------------------------------------------
  // Splitting on one character and joining

  /** `s.split(sep)` for a one-character separator: empty pieces are kept, so there is always one more piece than separators. */
  function Split(s: string, sep: char): (r: seq<string>)
    ensures |r| >= 1
    ensures forall i :: 0 <= i < |r| ==> sep !in r[i]
    decreases |s|
  {
    if s == [] then [[]]
    else
      var rest := Split(s[1..], sep);
      if s[0] == sep then [[]] + rest
      else [[s[0]] + rest[0]] + rest[1..]
  }

  /** `parts.join(sep)`. */
  function Join(parts: seq<string>, sep: string): string
  {
    if |parts| == 0 then []
    else if |parts| == 1 then parts[0]
    else parts[0] + sep + Join(parts[1..], sep)
  }

  function Count(s: string, c: char): nat
  {
    if s == [] then 0 else (if s[0] == c then 1 else 0) + Count(s[1..], c)
  }

  /** Joining the pieces of a split with the same separator gives back the original string. */
  lemma {:induction false} JoinSplit(s: string, sep: char)
    ensures Join(Split(s, sep), [sep]) == s
  {
    if s != [] {
      JoinSplit(s[1..], sep);
      var rest := Split(s[1..], sep);
      if s[0] == sep {
        assert ([[]] + rest)[1..] == rest;
      } else if |rest| > 1 {
        var parts := [[s[0]] + rest[0]] + rest[1..];
        assert parts[1..] == rest[1..];
      }
    }
  }

  /** There is one piece more than there are separators. */
  lemma {:induction false} SplitLength(s: string, sep: char)
    ensures |Split(s, sep)| == Count(s, sep) + 1
  {
    if s != [] {
      SplitLength(s[1..], sep);
    }
  }

  lemma {:induction false} SplitNoSeparator(w: string, sep: char)
    requires sep !in w
    ensures Split(w, sep) == [w]
  {
    if w != [] {
      SplitNoSeparator(w[1..], sep);
      assert [w[0]] + w[1..] == w;
    }
  }

  lemma {:induction false} SplitAfterPiece(w: string, t: string, sep: char)
    requires sep !in w
    ensures Split(w + [sep] + t, sep) == [w] + Split(t, sep)
  {
    var s := w + [sep] + t;
    if w == [] {
      assert s[1..] == t;
    } else {
      assert s[1..] == w[1..] + [sep] + t;
      SplitAfterPiece(w[1..], t, sep);
      assert [w[0]] + w[1..] == w;
    }
  }

  /** Splitting a join of separator-free pieces gives back the pieces. */
  lemma {:induction false} SplitJoin(parts: seq<string>, sep: char)
    requires |parts| >= 1
    requires forall i :: 0 <= i < |parts| ==> sep !in parts[i]
    ensures Split(Join(parts, [sep]), sep) == parts
  {
    if |parts| == 1 {
      SplitNoSeparator(parts[0], sep);
    } else {
      SplitJoin(parts[1..], sep);
      SplitAfterPiece(parts[0], Join(parts[1..], [sep]), sep);
      assert [parts[0]] + parts[1..] == parts;
    }
  }

  /** The join of the first k pieces is a prefix of the join of all of them. */
  lemma {:induction false} JoinPrefix(parts: seq<string>, k: nat, sep: string)
    requires k <= |parts|
    ensures Join(parts[..k], sep) <= Join(parts, sep)
  {
    if k > 0 && |parts| > 1 {
      if k == 1 {
        assert parts[..1] == [parts[0]];
      } else {
        JoinPrefix(parts[1..], k - 1, sep);
        assert parts[..k][1..] == parts[1..][..k - 1];
      }
    }
  }

  /** The first piece of a split is the text before the first separator, or all of it. */
  /** Every part of a join appears in it, at the position `k`. */
  lemma {:induction false} JoinHolds(parts: seq<string>, i: nat, sep: string) returns (k: nat)
    requires i < |parts|
    ensures k + |parts[i]| <= |Join(parts, sep)| && Join(parts, sep)[k..k + |parts[i]|] == parts[i]
    decreases |parts|
  {
    if |parts| == 1 {
      k := 0;
    } else if i == 0 {
      k := 0;
      assert Join(parts, sep) == parts[0] + sep + Join(parts[1..], sep);
    } else {
      var k' := JoinHolds(parts[1..], i - 1, sep);
      k := |parts[0]| + |sep| + k';
      var rest := Join(parts[1..], sep);
      assert Join(parts, sep) == parts[0] + sep + rest;
      assert Join(parts, sep)[k..k + |parts[i]|] == rest[k'..k' + |parts[i]|];
    }
  }

  lemma {:induction false} FirstPiece(s: string, sep: char)
    ensures Split(s, sep)[0] <= s
    ensures |Split(s, sep)[0]| < |s| ==> s[|Split(s, sep)[0]|] == sep
    ensures |Split(s, sep)[0]| == |s| <==> sep !in s
  {
    if s != [] {
      FirstPiece(s[1..], sep);
      if s[0] != sep {
        assert s == [s[0]] + s[1..];
      }
    }
  }

  // ---------------------------------------------------------------------------
  // ASCII case mapping

  function UpperChar(c: char): char {
    if 'a' <= c <= 'z' then (c as int - 32) as char else c
  }

  function LowerChar(c: char): char {
    if 'A' <= c <= 'Z' then (c as int + 32) as char else c
  }

  /** `toUpperCase` restricted to ASCII letters. */
  function Upper(s: string): (r: string)
    ensures |r| == |s| && forall i :: 0 <= i < |s| ==> r[i] == UpperChar(s[i])
  {
    if s == [] then [] else [UpperChar(s[0])] + Upper(s[1..])
  }

  /** `toLowerCase` restricted to ASCII letters. */
  function Lower(s: string): (r: string)
    ensures |r| == |s| && forall i :: 0 <= i < |s| ==> r[i] == LowerChar(s[i])
  {
    if s == [] then [] else [LowerChar(s[0])] + Lower(s[1..])
  }

  // ---------------------------------------------------------------------------
  // Integers to and from text

  predicate IsDecimalDigit(c: char) {
    '0' <= c <= '9'
  }

  function DigitChar(d: nat): (c: char)
    requires d < 10
    ensures IsDecimalDigit(c) && DigitValue(c) == d
  {
    (48 + d) as char
  }

  /** `n.toString()` for a non-negative integer. */
  function NatToString(n: nat): (r: string)
    ensures |r| >= 1
    ensures forall i :: 0 <= i < |r| ==> IsDecimalDigit(r[i])
  {
    if n < 10 then [DigitChar(n)] else NatToString(n / 10) + [DigitChar(n % 10)]
  }

  /** `i.toString()` for an integer. */
  function IntToString(i: int): string {
    if i < 0 then "-" + NatToString(-i) else NatToString(i)
  }

  /** The text of a two-digit number. */
  lemma TwoDigitText(a: nat, b: nat)
    requires 1 <= a < 10 && b < 10
    ensures IntToString(10 * a + b) == [DigitChar(a), DigitChar(b)]
  {
    var n := 10 * a + b;
    assert n / 10 == a && n % 10 == b;
    assert NatToString(a) == [DigitChar(a)];
    assert NatToString(n) == NatToString(a) + [DigitChar(b)];
  }

  /** The value of a digit or letter in radix 36; 36 for any other character. */
  function DigitValue(c: char): nat {
    if '0' <= c <= '9' then c as int - '0' as int
    else if 'a' <= c <= 'z' then c as int - 'a' as int + 10
    else if 'A' <= c <= 'Z' then c as int - 'A' as int + 10
    else 36
  }

  /** The longest prefix of `s` made of digits of the given radix. */
  function DigitRun(s: string, radix: nat): (r: string)
    ensures r <= s
    ensures forall i :: 0 <= i < |r| ==> DigitValue(r[i]) < radix
    ensures |r| < |s| ==> DigitValue(s[|r|]) >= radix
  {
    if s != [] && DigitValue(s[0]) < radix then [s[0]] + DigitRun(s[1..], radix) else []
  }

  function DigitsValue(z: string, radix: nat): nat
  {
    if z == [] then 0
    else DigitsValue(z[..|z| - 1], radix) * radix + DigitValue(z[|z| - 1])
  }

  /**
   * `parseInt(s)` with no radix: leading whitespace is skipped, one sign is taken,
   * a `0x`/`0X` prefix selects radix 16, and the longest run of digits after that
   * is read; `None` is `NaN`, the result when that run is empty.
   */
  function ParseInt(s: string): (r: Option<int>)
  {
    ParseSigned(TrimStart(s))
  }

  /** `parseInt` after the leading whitespace: one optional sign, then the magnitude. */
  function ParseSigned(t: string): Option<int>
  {
    var negative := t != [] && t[0] == '-';
    var u := if t != [] && (t[0] == '-' || t[0] == '+') then t[1..] else t;
    match ParseMagnitude(u)
    case None => None
    case Some(m) => Some(if negative then -(m as int) else m)
  }

  /** The unsigned part of `parseInt`: an optional `0x`/`0X` prefix, then the longest run of digits. */
  function ParseMagnitude(u: string): Option<nat>
  {
    var hex := |u| >= 2 && u[0] == '0' && (u[1] == 'x' || u[1] == 'X');
    var radix := if hex then 16 else 10;
    var z := DigitRun(if hex then u[2..] else u, radix);
    if z == [] then None else Some(DigitsValue(z, radix))
  }

  lemma {:induction false} DecimalValue(n: nat)
    ensures DigitsValue(NatToString(n), 10) == n
  {
    if n >= 10 {
      DecimalValue(n / 10);
      var z := NatToString(n);
      assert z[..|z| - 1] == NatToString(n / 10);
    }
  }

  lemma {:induction false} DigitRunAll(s: string, radix: nat)
    requires forall i :: 0 <= i < |s| ==> DigitValue(s[i]) < radix
    ensures DigitRun(s, radix) == s
  {
    if s != [] {
      DigitRunAll(s[1..], radix);
      assert [s[0]] + s[1..] == s;
    }
  }

  lemma ParseDecimalMagnitude(z: string)
    requires |z| >= 1 && forall i :: 0 <= i < |z| ==> IsDecimalDigit(z[i])
    ensures ParseMagnitude(z) == Some(DigitsValue(z, 10))
  {
    assert !(|z| >= 2 && z[0] == '0' && (z[1] == 'x' || z[1] == 'X'));
    DigitRunAll(z, 10);
  }

  lemma TrimStartUnchanged(s: string)
    requires s == [] || !IsSpace(s[0])
    ensures TrimStart(s) == s
  {
  }

  lemma NegativeText(z: string, m: nat)
    requires ParseMagnitude(z) == Some(m)
    ensures ParseInt("-" + z) == Some(-(m as int))
  {
    TrimStartUnchanged("-" + z);
    NegativeSign(z, m);
  }

  lemma NegativeSign(z: string, m: nat)
    requires ParseMagnitude(z) == Some(m)
    ensures ParseSigned("-" + z) == Some(-(m as int))
  {
    assert ("-" + z)[1..] == z;
  }

  /** Reading back the decimal text of an integer gives that integer. */
  lemma {:induction false} ParseIntToString(i: int)
    ensures ParseInt(IntToString(i)) == Some(i)
  {
    var n: nat := if i < 0 then -i else i;
    DecimalValue(n);
    ParseDecimalMagnitude(NatToString(n));
    if i < 0 {
      NegativeText(NatToString(n), n);
    } else {
      UnsignedText(NatToString(n), n);
    }
  }

  /** Reading a two-digit text. */
  lemma ParseTwoDigits(s: string, a: nat, b: nat)
    requires 1 <= a < 10 && b < 10 && s == [DigitChar(a), DigitChar(b)]
    ensures ParseInt(s) == Some(10 * a + b)
  {
    var first := s[..1];
    assert first == [DigitChar(a)] && first[..0] == [];
    assert DigitsValue(first, 10) == a;
    assert s[..|s| - 1] == first;
    assert DigitsValue(s, 10) == 10 * a + b;
    ParseDecimalMagnitude(s);
    assert ParseMagnitude(s) == Some(10 * a + b);
    UnsignedText(s, 10 * a + b);
  }

  lemma DigitCharsOf()
    ensures DigitChar(0) == '0' && DigitChar(2) == '2' && DigitChar(4) == '4'
  {
  }

  /** Reading a one-digit text. */
  lemma ParseOneDigit(s: string, a: nat)
    requires a < 10 && s == [DigitChar(a)]
    ensures ParseInt(s) == Some(a)
  {
    assert s[..0] == [];
    assert DigitsValue(s, 10) == a;
    ParseDecimalMagnitude(s);
    assert ParseMagnitude(s) == Some(a);
    UnsignedText(s, a);
  }

  lemma UnsignedText(z: string, m: nat)
    requires z != [] && IsDecimalDigit(z[0])
    requires ParseMagnitude(z) == Some(m)
    ensures ParseInt(z) == Some(m)
  {
    assert !IsSpace(z[0]);
    TrimStartUnchanged(z);
    assert z[0] != '-' && z[0] != '+';
    assert ParseSigned(z) == Some(m);
  }
}
