/**
 * Shared value types and the JavaScript string/array primitives the storefront
 * relies on: `trim`, `toLowerCase`/`toUpperCase`, `split`, `join`, `includes`,
 * `startsWith`, `Number.parseInt`, `Array.from(new Set(..))` and the
 * "toggle membership" idiom used by the favourites store and the filter panel.
 */
module Text {

  datatype Option<T> = None | Some(value: T)

  /** A JavaScript number as the model needs it: NaN, or a finite value. */
  datatype Num = NaN | Fin(v: real)

  /** JavaScript truthiness of a number: 0 and NaN are falsy. */
  predicate Truthy(n: Num) {
    n.Fin? && n.v != 0.0
  }

  /** A JSON number: `JSON.stringify` writes NaN and the infinities as `null`. */
  function Json(n: Num): Option<real> {
    if n.Fin? then Some(n.v) else None
  }

  /** JavaScript truthiness of a text that may be null or undefined: those and "" are falsy. */
  predicate Filled(s: Option<string>) {
    s.Some? && s.value != []
  }

  /** `s ?? d`: the text when it is there, the default otherwise. */
  function OrElse(s: Option<string>, d: string): string {
    if s.Some? then s.value else d
  }

  /** `s.length`: UTF-16 code units, so a character outside the Basic Multilingual Plane counts twice. */
  function Utf16Length(s: string): (n: nat)
    ensures |s| <= n <= 2 * |s|
  {
    if s == [] then 0 else (if s[0] as int > 0xFFFF then 2 else 1) + Utf16Length(s[1..])
  }

  // ---------------------------------------------------------------------------
  // Whitespace and trimming
  // ---------------------------------------------------------------------------

  /** The characters `String.prototype.trim` and the regular expression `\s` treat as white space. */
  predicate IsSpace(c: char) {
    c == ' ' || c == '\t' || c == '\n' || c == '\r' || c == '\U{B}' || c == '\U{C}'
    || c == '\U{A0}' || c == '\U{1680}' || ('\U{2000}' <= c <= '\U{200A}')
    || c == '\U{2028}' || c == '\U{2029}' || c == '\U{202F}' || c == '\U{205F}'
    || c == '\U{3000}' || c == '\U{FEFF}'
  }

  predicate NoSpace(s: string) {
    forall i :: 0 <= i < |s| ==> !IsSpace(s[i])
  }

  predicate AllSpace(s: string) {
    forall i :: 0 <= i < |s| ==> IsSpace(s[i])
  }

  /** A string that `trim` leaves unchanged. */
  predicate IsTrimmed(s: string) {
    s == [] || (!IsSpace(s[0]) && !IsSpace(s[|s| - 1]))
  }

  lemma AllSpaceAfterSpace(s: string)
    requires |s| > 0 && IsSpace(s[0])
    ensures AllSpace(s) <==> AllSpace(s[1..])
  {
    assert forall i :: 0 < i < |s| ==> s[i] == s[1..][i - 1];
  }

  lemma AllSpaceBeforeSpace(s: string)
    requires |s| > 0 && IsSpace(s[|s| - 1])
    ensures AllSpace(s) <==> AllSpace(s[..|s| - 1])
  {
    assert forall i :: 0 <= i < |s| - 1 ==> s[i] == s[..|s| - 1][i];
  }

  function TrimStart(s: string): (r: string)
    ensures |r| <= |s| && r == s[|s| - |r|..]
    ensures AllSpace(s[..|s| - |r|])
    ensures r == [] || !IsSpace(r[0])
    ensures r == [] <==> AllSpace(s)
  {
    if |s| > 0 && IsSpace(s[0]) then
      var t := s[1..];
      var r := TrimStart(t);
      var k := |t| - |r|;
      assert r == s[k + 1..];
      var u := s[..k + 1];
      assert |s| - |r| == k + 1;
      AllSpaceAfterSpace(s);
      AllSpaceAfterSpace(u);
      assert u[1..] == t[..k];
      assert AllSpace(u);
      r
    else s
  }

  function TrimEnd(s: string): (r: string)
    ensures |r| <= |s| && r == s[..|r|]
    ensures AllSpace(s[|r|..])
    ensures r == [] || !IsSpace(r[|r| - 1])
    ensures r == [] <==> AllSpace(s)
  {
    if |s| > 0 && IsSpace(s[|s| - 1]) then
      var t := s[..|s| - 1];
      var r := TrimEnd(t);
      assert r == s[..|r|];
      var u := s[|r|..];
      AllSpaceBeforeSpace(s);
      AllSpaceBeforeSpace(u);
      assert u[..|u| - 1] == t[|r|..];
      r
    else s
  }

  /** `String.prototype.trim`: drops leading and trailing white space and nothing else. */
  function Trim(s: string): (r: string)
    ensures IsTrimmed(r)
    ensures |r| <= |s|
    ensures r == [] <==> AllSpace(s)
    decreases |s|
  {
    if s == [] then []
    else if IsSpace(s[0]) then Trim(s[1..])
    else if IsSpace(s[|s| - 1]) then Trim(s[..|s| - 1])
    else s
  }

  /** A string with no white space at either end is its own trim. */
  lemma TrimOfTrimmed(s: string)
    requires IsTrimmed(s)
    ensures Trim(s) == s
  {
  }

  /** Trimming is the same as dropping the leading white space and then the trailing white space. */
  lemma {:induction false} TrimIsTrimEndOfTrimStart(s: string)
    ensures Trim(s) == TrimEnd(TrimStart(s))
    decreases |s|
  {
    if s != [] {
      if IsSpace(s[0]) {
        TrimIsTrimEndOfTrimStart(s[1..]);
      } else if IsSpace(s[|s| - 1]) {
        TrimIsTrimEndOfTrimStart(s[..|s| - 1]);
        assert TrimStart(s) == s;
        assert TrimStart(s[..|s| - 1]) == s[..|s| - 1];
      }
    }
  }

  // ---------------------------------------------------------------------------
  // Case mapping
  // ---------------------------------------------------------------------------

  /** `toLowerCase` on one character: ASCII and Latin-1 upper-case letters. */
  function LowerChar(c: char): (r: char)
    ensures IsSpace(r) <==> IsSpace(c)
  {
    if 'A' <= c <= 'Z' || ('\U{C0}' <= c <= '\U{DE}' && c != '\U{D7}') then
      (c as int + 32) as char
    else c
  }

  /** `toUpperCase` on one character: ASCII and Latin-1 lower-case letters. */
  function UpperChar(c: char): (r: char)
    ensures IsSpace(r) <==> IsSpace(c)
  {
    if 'a' <= c <= 'z' || ('\U{E0}' <= c <= '\U{FE}' && c != '\U{F7}') then
      (c as int - 32) as char
    else c
  }

  function Lower(s: string): (r: string)
    ensures |r| == |s|
    ensures forall i :: 0 <= i < |s| ==> r[i] == LowerChar(s[i])
  {
    if s == [] then [] else [LowerChar(s[0])] + Lower(s[1..])
  }

  function Upper(s: string): (r: string)
    ensures |r| == |s|
    ensures forall i :: 0 <= i < |s| ==> r[i] == UpperChar(s[i])
  {
    if s == [] then [] else [UpperChar(s[0])] + Upper(s[1..])
  }

  /** Upper-casing ignores the case of the input: two strings that differ only in case agree. */
  lemma UpperOfLower(s: string)
    ensures Upper(Lower(s)) == Upper(s)
  {
    assert forall i :: 0 <= i < |s| ==> UpperChar(LowerChar(s[i])) == UpperChar(s[i]);
  }

  /** Upper-casing twice is upper-casing once. */
  lemma UpperOfUpper(s: string)
    ensures Upper(Upper(s)) == Upper(s)
  {
    assert forall i :: 0 <= i < |s| ==> UpperChar(UpperChar(s[i])) == UpperChar(s[i]);
  }

  /** Lower-casing ignores the case of the input: a string and its upper-cased form agree. */
  lemma LowerOfUpper(s: string)
    ensures Lower(Upper(s)) == Lower(s)
  {
    assert forall i :: 0 <= i < |s| ==> LowerChar(UpperChar(s[i])) == LowerChar(s[i]);
  }

  /** Strings with the same lower-cased form are blank together. */
  lemma BlankIgnoresCase(a: string, b: string)
    requires Lower(a) == Lower(b)
    ensures AllSpace(a) <==> AllSpace(b)
  {
    assert forall i :: 0 <= i < |a| ==> (IsSpace(a[i]) <==> IsSpace(Lower(a)[i]));
    assert forall i :: 0 <= i < |b| ==> (IsSpace(b[i]) <==> IsSpace(Lower(b)[i]));
  }

  // ---------------------------------------------------------------------------
  // Prefixes, substrings, splitting and joining
  // ---------------------------------------------------------------------------

  predicate StartsWith(s: string, p: string) {
    |p| <= |s| && s[..|p|] == p
  }

  /** `String.prototype.includes`: `sub` occurs somewhere in `s`, so it is no longer than `s`; the empty text occurs everywhere. */
  predicate Contains(s: string, sub: string)
    ensures Contains(s, sub) ==> |sub| <= |s|
    ensures sub == [] ==> Contains(s, sub)
  {
    StartsWith(s, sub) || (s != [] && Contains(s[1..], sub))
  }

  /** A copy of `sub` starts at position `i` of `s`. */
  predicate OccursAt(s: string, sub: string, i: int) {
    0 <= i <= |s| - |sub| && s[i..i + |sub|] == sub
  }

  /** `includes` is the search for an occurrence: some position of `s` starts a copy of `sub`. */
  lemma {:induction false} ContainsIsOccurrence(s: string, sub: string)
    ensures Contains(s, sub) <==> exists i :: OccursAt(s, sub, i)
  {
    if StartsWith(s, sub) {
      assert OccursAt(s, sub, 0);
    } else if s != [] {
      ContainsIsOccurrence(s[1..], sub);
      if Contains(s[1..], sub) {
        var i :| OccursAt(s[1..], sub, i);
        assert s[i + 1..i + 1 + |sub|] == s[1..][i..i + |sub|];
        assert OccursAt(s, sub, i + 1);
      }
      if exists i :: OccursAt(s, sub, i) {
        var i :| OccursAt(s, sub, i);
        assert i != 0;
        assert s[1..][i - 1..i - 1 + |sub|] == s[i..i + |sub|];
        assert OccursAt(s[1..], sub, i - 1);
      }
    }
  }

  /** `s.split(sep)` for a one-character separator: never empty; "" splits into [""]. */
  function Split(s: string, sep: char): (r: seq<string>)
    ensures |r| >= 1
  {
    if s == [] then [""]
    else if s[0] == sep then [""] + Split(s[1..], sep)
    else
      var rest := Split(s[1..], sep);
      [[s[0]] + rest[0]] + rest[1..]
  }

  /** No piece contains the separator. */
  lemma {:induction false} SplitPiecesFree(s: string, sep: char)
    ensures forall k :: 0 <= k < |Split(s, sep)| ==> sep !in Split(s, sep)[k]
  {
    if s != [] {
      SplitPiecesFree(s[1..], sep);
      var rest := Split(s[1..], sep);
      if s[0] != sep {
        assert sep !in [s[0]] + rest[0];
        assert forall k :: 1 <= k < |Split(s, sep)| ==> Split(s, sep)[k] == rest[k];
      } else {
        assert forall k :: 1 <= k < |Split(s, sep)| ==> Split(s, sep)[k] == rest[k - 1];
      }
    }
  }

  /** `xs.join(sep)`. */
  function Join(xs: seq<string>, sep: string): (r: string)
    ensures xs != [] ==> StartsWith(r, xs[0])
    ensures xs == [] ==> r == ""
  {
    if xs == [] then ""
    else if |xs| == 1 then xs[0]
    else xs[0] + sep + Join(xs[1..], sep)
  }

  /** A string free of `sep` comes back from `Split` as one piece, whatever follows the next separator. */
  lemma {:induction false} SplitPrefix(x: string, rest: string, sep: char)
    requires sep !in x
    ensures Split(x + [sep] + rest, sep) == [x] + Split(rest, sep)
    ensures Split(x, sep) == [x]
  {
    if x == [] {
      assert x + [sep] + rest == [sep] + rest;
      assert ([sep] + rest)[1..] == rest;
    } else {
      SplitPrefix(x[1..], rest, sep);
      assert (x + [sep] + rest)[1..] == x[1..] + [sep] + rest;
      assert [x[0]] + x[1..] == x;
    }
  }

  /** Splitting what `Join` glued with a one-character separator gives the pieces back. */
  lemma {:induction false} SplitJoin(xs: seq<string>, sep: char)
    requires |xs| >= 1
    requires forall k :: 0 <= k < |xs| ==> sep !in xs[k]
    ensures Split(Join(xs, [sep]), sep) == xs
  {
    if |xs| == 1 {
      SplitPrefix(xs[0], "", sep);
    } else {
      SplitJoin(xs[1..], sep);
      SplitPrefix(xs[0], Join(xs[1..], [sep]), sep);
      assert xs[0] + [sep] + Join(xs[1..], [sep]) == Join(xs, [sep]);
    }
  }

  /** The position of the first separator in a string that has one. */
  function FirstSeparator(s: string, sep: char): (i: nat)
    requires sep in s
    ensures i < |s| && s[i] == sep && sep !in s[..i]
  {
    if s[0] == sep then 0
    else
      var i := FirstSeparator(s[1..], sep);
      assert s[..i + 1] == [s[0]] + s[1..][..i];
      i + 1
  }

  /** Splitting at one separator splits the two sides independently. */
  lemma {:induction false} SplitAppend(a: string, b: string, sep: char)
    ensures Split(a + [sep] + b, sep) == Split(a, sep) + Split(b, sep)
    decreases |a|
  {
    if sep !in a {
      SplitPrefix(a, b, sep);
    } else {
      var i := FirstSeparator(a, sep);
      var x := a[..i];
      var rest := a[i + 1..];
      assert a == x + [sep] + rest;
      assert a + [sep] + b == x + [sep] + (rest + [sep] + b);
      SplitPrefix(x, rest + [sep] + b, sep);
      SplitPrefix(x, rest, sep);
      SplitAppend(rest, b, sep);
      var sr := Split(rest, sep);
      var sb := Split(b, sep);
      assert [x] + (sr + sb) == ([x] + sr) + sb;
    }
  }

  /** Trimming keeps only characters of the input. */
  lemma {:induction false} TrimKeepsCharacters(s: string)
    ensures forall c :: c in Trim(s) ==> c in s
    decreases |s|
  {
    if s != [] && IsSpace(s[0]) {
      TrimKeepsCharacters(s[1..]);
    } else if s != [] && IsSpace(s[|s| - 1]) {
      TrimKeepsCharacters(s[..|s| - 1]);
    }
  }

  /** `xs.map(x => x.trim()).filter(Boolean)`. */
  function NonEmptyTrimmed(xs: seq<string>): (r: seq<string>)
    ensures |r| <= |xs|
    ensures forall k :: 0 <= k < |r| ==> r[k] != [] && IsTrimmed(r[k])
  {
    if xs == [] then []
    else
      var t := Trim(xs[0]);
      (if t == [] then [] else [t]) + NonEmptyTrimmed(xs[1..])
  }

  lemma {:induction false} NonEmptyTrimmedAppend(a: seq<string>, b: seq<string>)
    ensures NonEmptyTrimmed(a + b) == NonEmptyTrimmed(a) + NonEmptyTrimmed(b)
  {
    if a != [] {
      NonEmptyTrimmedAppend(a[1..], b);
      assert (a + b)[1..] == a[1..] + b;
      assert (a + b)[0] == a[0];
    } else {
      assert a + b == b;
    }
  }

  /** `s.split(sep).map(x => x.trim()).filter(Boolean)`: the trimmed, non-empty pieces. */
  function SplitTrimmed(s: string, sep: char): (r: seq<string>)
    ensures forall k :: 0 <= k < |r| ==> r[k] != [] && IsTrimmed(r[k])
  {
    NonEmptyTrimmed(Split(s, sep))
  }

  /** The pieces of two texts joined by the separator are the pieces of the first, then those of the second. */
  lemma SplitTrimmedAppend(a: string, b: string, sep: char)
    ensures SplitTrimmed(a + [sep] + b, sep) == SplitTrimmed(a, sep) + SplitTrimmed(b, sep)
  {
    SplitAppend(a, b, sep);
    NonEmptyTrimmedAppend(Split(a, sep), Split(b, sep));
  }

  /** A text free of the separator is one piece: its trim, or nothing when that is empty. */
  lemma SplitTrimmedOfPiece(s: string, sep: char)
    requires sep !in s
    ensures SplitTrimmed(s, sep) == (if Trim(s) == [] then [] else [Trim(s)])
  {
    SplitPrefix(s, "", sep);
  }

  /** Pieces that are already trimmed and non-empty pass through unchanged. */
  lemma {:induction false} NonEmptyTrimmedOfClean(xs: seq<string>)
    requires forall k :: 0 <= k < |xs| ==> xs[k] != [] && IsTrimmed(xs[k])
    ensures NonEmptyTrimmed(xs) == xs
  {
    if xs != [] {
      TrimOfTrimmed(xs[0]);
      NonEmptyTrimmedOfClean(xs[1..]);
    }
  }

  /** Joining clean pieces with the separator and splitting them again gives them back. */
  lemma SplitTrimmedOfJoin(xs: seq<string>, sep: char)
    requires forall k :: 0 <= k < |xs| ==> xs[k] != [] && IsTrimmed(xs[k]) && sep !in xs[k]
    ensures SplitTrimmed(Join(xs, [sep]), sep) == xs
  {
    if xs != [] {
      SplitJoin(xs, sep);
      NonEmptyTrimmedOfClean(xs);
    }
  }

  /** No piece holds the separator. */
  lemma {:induction false} SplitTrimmedFreeOfSeparator(s: string, sep: char)
    ensures forall k :: 0 <= k < |SplitTrimmed(s, sep)| ==> sep !in SplitTrimmed(s, sep)[k]
  {
    SplitPiecesFree(s, sep);
    NonEmptyTrimmedFree(Split(s, sep), sep);
  }

  lemma {:induction false} NonEmptyTrimmedFree(xs: seq<string>, sep: char)
    requires forall k :: 0 <= k < |xs| ==> sep !in xs[k]
    ensures forall k :: 0 <= k < |NonEmptyTrimmed(xs)| ==> sep !in NonEmptyTrimmed(xs)[k]
  {
    if xs != [] {
      NonEmptyTrimmedFree(xs[1..], sep);
      TrimKeepsCharacters(xs[0]);
    }
  }

  // ---------------------------------------------------------------------------
  // Integers and text
  // ---------------------------------------------------------------------------

  predicate IsDigit(c: char) {
    '0' <= c <= '9'
  }

  function DigitChar(d: nat): (c: char)
    requires d < 10
    ensures IsDigit(c) && c as int - '0' as int == d
  {
    ('0' as int + d) as char
  }

  /** The decimal representation JavaScript gives a non-negative integer. */
  function NatToString(n: nat): (r: string)
    ensures |r| >= 1
    ensures forall i :: 0 <= i < |r| ==> IsDigit(r[i])
  {
    if n < 10 then [DigitChar(n)] else NatToString(n / 10) + [DigitChar(n % 10)]
  }

  function IntToString(n: int): string {
    if n >= 0 then NatToString(n) else "-" + NatToString(-n)
  }

  function HexValue(c: char): (r: int)
    ensures -1 <= r < 16
  {
    if '0' <= c <= '9' then c as int - '0' as int
    else if 'a' <= c <= 'f' then c as int - 'a' as int + 10
    else if 'A' <= c <= 'F' then c as int - 'A' as int + 10
    else -1
  }

  /** The longest prefix of `s` made of digits of the given radix (10 or 16). */
  function DigitPrefix(s: string, radix: nat): (r: string)
    requires radix == 10 || radix == 16
    ensures |r| <= |s| && r == s[..|r|]
    ensures forall i :: 0 <= i < |r| ==> 0 <= HexValue(r[i]) < radix
  {
    if s != [] && 0 <= HexValue(s[0]) < radix then [s[0]] + DigitPrefix(s[1..], radix) else []
  }

  function DigitsValue(ds: string, radix: nat): (v: nat)
    requires radix == 10 || radix == 16
    requires forall i :: 0 <= i < |ds| ==> 0 <= HexValue(ds[i]) < radix
  {
    if ds == [] then 0
    else DigitsValue(ds[..|ds| - 1], radix) * radix + HexValue(ds[|ds| - 1])
  }

  /** The digits after an optional sign and an optional `0x`/`0X` prefix, as `parseInt` reads them. */
  function ParseUnsigned(s: string): Option<int> {
    var hex := |s| >= 2 && s[0] == '0' && (s[1] == 'x' || s[1] == 'X');
    var radix := if hex then 16 else 10;
    var ds := DigitPrefix(if hex then s[2..] else s, radix);
    if ds == [] then None else Some(DigitsValue(ds, radix))
  }

  /** One optional sign, then the unsigned part. */
  function ParseSigned(t: string): Option<int> {
    if t != [] && t[0] == '-' then
      match ParseUnsigned(t[1..])
      case None => None
      case Some(n) => Some(-n)
    else if t != [] && t[0] == '+' then ParseUnsigned(t[1..])
    else ParseUnsigned(t)
  }

  /**
   * `Number.parseInt(s)` with no radix: leading white space is skipped, one sign is
   * read, a `0x` prefix selects radix 16, and the longest digit prefix is read.
   * None stands for NaN (no digit at all).
   */
  function ParseInt(s: string): Option<int> {
    ParseSigned(TrimStart(s))
  }

  /** Text without a single decimal digit parses to NaN. */
  lemma ParseIntWithoutDigits(s: string)
    requires forall i :: 0 <= i < |s| ==> !IsDigit(s[i])
    ensures ParseInt(s) == None
  {
    var t := TrimStart(s);
    assert forall i :: 0 <= i < |t| ==> !IsDigit(t[i]) by {
      forall i | 0 <= i < |t| ensures !IsDigit(t[i]) {
        assert t[i] == s[|s| - |t| + i];
      }
    }
    ParseSignedWithoutDigits(t);
  }

  lemma ParseSignedWithoutDigits(t: string)
    requires forall i :: 0 <= i < |t| ==> !IsDigit(t[i])
    ensures ParseSigned(t) == None
  {
    if t != [] && (t[0] == '-' || t[0] == '+') {
      ParseUnsignedWithoutDigits(t[1..]);
    } else {
      ParseUnsignedWithoutDigits(t);
    }
  }

  lemma ParseUnsignedWithoutDigits(u: string)
    requires forall i :: 0 <= i < |u| ==> !IsDigit(u[i])
    ensures ParseUnsigned(u) == None
  {
    assert u == [] || u[0] != '0';
    assert DigitPrefix(u, 10) == [];
  }

  lemma {:induction false} DigitPrefixOfDigits(s: string, rest: string)
    requires forall i :: 0 <= i < |s| ==> IsDigit(s[i])
    requires rest == [] || !IsDigit(rest[0])
    ensures DigitPrefix(s + rest, 10) == s
  {
    if s != [] {
      assert (s + rest)[1..] == s[1..] + rest;
      DigitPrefixOfDigits(s[1..], rest);
    } else {
      assert s + rest == rest;
    }
  }

  lemma {:induction false} DigitsValueOfNatToString(n: nat)
    ensures DigitsValue(NatToString(n), 10) == n
  {
    var r := NatToString(n);
    if n >= 10 {
      DigitsValueOfNatToString(n / 10);
      assert r[..|r| - 1] == NatToString(n / 10);
    }
  }

  lemma ParseUnsignedOfNatToString(m: nat)
    ensures ParseUnsigned(NatToString(m)) == Some(m)
  {
    var digits := NatToString(m);
    assert !(|digits| >= 2 && digits[0] == '0' && (digits[1] == 'x' || digits[1] == 'X')) by {
      if |digits| >= 2 {
        assert IsDigit(digits[1]);
      }
    }
    assert DigitPrefix(digits, 10) == digits by {
      DigitPrefixOfDigits(digits, "");
      assert digits + "" == digits;
    }
    DigitsValueOfNatToString(m);
  }

  lemma ParseSignedOfIntToString(n: int)
    ensures ParseSigned(IntToString(n)) == Some(n)
  {
    if n >= 0 {
      var d := NatToString(n);
      assert IsDigit(d[0]);
      ParseUnsignedOfNatToString(n);
      assert ParseSigned(d) == ParseUnsigned(d);
    } else {
      var m: nat := -n;
      var d := NatToString(m);
      var s := "-" + d;
      assert IntToString(n) == s;
      assert s[0] == '-' && s[1..] == d;
      ParseUnsignedOfNatToString(m);
    }
  }

  /** Text that does not start with white space is left alone by `trimStart`. */
  lemma TrimStartOfUnspaced(s: string)
    requires s == [] || !IsSpace(s[0])
    ensures TrimStart(s) == s
  {
  }

  /** `parseInt` reads back what `toString` wrote for an integer. */
  lemma ParseIntOfIntToString(n: int)
    ensures ParseInt(IntToString(n)) == Some(n)
  {
    var s := IntToString(n);
    assert s[0] == '-' || IsDigit(s[0]);
    TrimStartOfUnspaced(s);
    ParseSignedOfIntToString(n);
  }

  predicate AllDigits(s: string) {
    s != [] && forall i :: 0 <= i < |s| ==> IsDigit(s[i])
  }

  /** An optional sign followed by decimal digits only, read as an integer; None for any other text. */
  function SignedDecimal(t: string): Option<int> {
    if t != [] && (t[0] == '-' || t[0] == '+') then
      if AllDigits(t[1..]) then
        var m: int := DigitsValue(t[1..], 10);
        Some(if t[0] == '-' then -m else m)
      else None
    else if AllDigits(t) then Some(DigitsValue(t, 10))
    else None
  }

  /**
   * `Number(s)`: surrounding white space is ignored, a blank text is 0 and an optionally
   * signed run of decimal digits is that integer. Every other text (fractions, exponents,
   * `0x` literals, "Infinity", garbage) is left to `other`, which receives the trimmed text.
   */
  function ToNumber(s: string, other: string -> Num): (n: Num)
    ensures AllSpace(s) ==> n == Fin(0.0)
  {
    var t := Trim(s);
    if t == [] then Fin(0.0)
    else match SignedDecimal(t)
      case Some(v) => Fin(v as real)
      case None => other(t)
  }

  lemma SignedDecimalOfIntToString(n: int)
    ensures SignedDecimal(IntToString(n)) == Some(n)
  {
    var s := IntToString(n);
    var m: nat := if n >= 0 then n else -n;
    var digits := NatToString(m);
    DigitsValueOfNatToString(m);
    if n >= 0 {
      assert s == digits && AllDigits(s);
    } else {
      assert s[1..] == digits;
    }
  }

  /** `Number` reads back what `toString` wrote for an integer. */
  lemma ToNumberOfIntToString(n: int, other: string -> Num)
    ensures ToNumber(IntToString(n), other) == Fin(n as real)
  {
    var s := IntToString(n);
    var digits := NatToString(if n >= 0 then n else -n);
    assert n < 0 ==> s[|s| - 1] == digits[|digits| - 1];
    assert IsTrimmed(s);
    TrimOfTrimmed(s);
    SignedDecimalOfIntToString(n);
  }

  /** The two numerals the listing defaults to. */
  lemma ToNumberOfOneAndTwelve(other: string -> Num)
    ensures ToNumber("1", other) == Fin(1.0)
    ensures ToNumber("12", other) == Fin(12.0)
  {
    assert IntToString(1) == "1";
    assert IntToString(12) == "12";
    ToNumberOfIntToString(1, other);
    ToNumberOfIntToString(12, other);
  }

  // ---------------------------------------------------------------------------
  // Lists used as sets
  // ---------------------------------------------------------------------------

  predicate NoDuplicates<T(==,!new)>(xs: seq<T>) {
    forall i, j :: 0 <= i < j < |xs| ==> xs[i] != xs[j]
  }

  /** `xs.filter(y => y !== x)`. */
  function RemoveAll<T(==,!new)>(xs: seq<T>, x: T): (r: seq<T>)
    ensures x !in r
    ensures forall y :: y != x ==> (y in r <==> y in xs)
    ensures x !in xs ==> r == xs
    ensures NoDuplicates(xs) ==> NoDuplicates(r)
    ensures |r| <= |xs|
  {
    if xs == [] then []
    else if xs[0] == x then RemoveAll(xs[1..], x)
    else
      var rest := RemoveAll(xs[1..], x);
      assert xs[0] !in xs[1..] ==> xs[0] !in rest;
      [xs[0]] + rest
  }

  /** `xs.includes(x) ? xs.filter(y => y !== x) : [...xs, x]`. */
  function ToggleMember<T(==,!new)>(xs: seq<T>, x: T): (r: seq<T>)
    ensures x in r <==> x !in xs
    ensures forall y :: y != x ==> (y in r <==> y in xs)
    ensures NoDuplicates(xs) ==> NoDuplicates(r)
  {
    if x in xs then RemoveAll(xs, x) else xs + [x]
  }

  /** Toggling an absent element twice gives the original list back, order included. */
  lemma ToggleTwiceAbsent<T(!new)>(xs: seq<T>, x: T)
    requires x !in xs
    ensures ToggleMember(ToggleMember(xs, x), x) == xs
  {
    RemoveAllAppended(xs, x);
  }

  lemma {:induction false} RemoveAllAppended<T(!new)>(xs: seq<T>, x: T)
    requires x !in xs
    ensures RemoveAll(xs + [x], x) == xs
  {
    if xs == [] {
      assert [] + [x] == [x];
      assert [x][1..] == [];
    } else {
      RemoveAllAppended(xs[1..], x);
      assert (xs + [x])[1..] == xs[1..] + [x];
    }
  }

  /** `Array.from(new Set(xs))`: the distinct elements of `xs` in order of first occurrence. */
  function Dedup<T(==,!new)>(xs: seq<T>): (r: seq<T>)
    ensures NoDuplicates(r)
    ensures forall y :: y in r <==> y in xs
    ensures |r| <= |xs|
  {
    if xs == [] then []
    else
      var d := Dedup(xs[..|xs| - 1]);
      assert forall y :: y in xs <==> y in xs[..|xs| - 1] || y == xs[|xs| - 1];
      if xs[|xs| - 1] in d then d else d + [xs[|xs| - 1]]
  }

  lemma {:induction false} DedupOfDistinct<T(!new)>(xs: seq<T>)
    requires NoDuplicates(xs)
    ensures Dedup(xs) == xs
  {
    if xs != [] {
      var init := xs[..|xs| - 1];
      DedupOfDistinct(init);
      assert xs[|xs| - 1] !in init;
      assert init + [xs[|xs| - 1]] == xs;
    }
  }
}
