/** The parts of Go's `strings` and `strconv` packages, and of its integer
    conversions, that the plugin relies on. Strings are sequences of Unicode
    code points. */
module Text {

  datatype Option<T> = None | Some(value: T)

  const TwoTo32: int := 0x1_0000_0000
  const MaxInt64: int := 0x7fff_ffff_ffff_ffff
  const MinInt64: int := -0x8000_0000_0000_0000
  const MaxUint64: int := 0xffff_ffff_ffff_ffff

  type uint32 = x: int | 0 <= x < 0x1_0000_0000

  /** Go's conversion `uint32(v)` of a signed integer: two's-complement truncation. */
  function ToUint32(v: int): (r: uint32)
    ensures 0 <= v < TwoTo32 ==> r == v
    ensures -TwoTo32 <= v < 0 ==> r == v + TwoTo32
    ensures (v - r) % TwoTo32 == 0
  {
    v % TwoTo32
  }

  // ---------------------------------------------------------------------------
  // strings.Split and strings.Join with a one-character separator

  /** `strings.Split(s, string(sep))`: the pieces between separators; never empty. */
  function Split(s: string, sep: char): (parts: seq<string>)
    ensures |parts| >= 1
    ensures forall i :: 0 <= i < |parts| ==> sep !in parts[i]
    decreases |s|
  {
    if s == [] then [""]
    else
      var rest := Split(s[1..], sep);
      if s[0] == sep then [""] + rest
      else [[s[0]] + rest[0]] + rest[1..]
  }

  /** `strings.Join(parts, string(sep))`. */
  function Join(parts: seq<string>, sep: char): string
  {
    if |parts| == 0 then ""
    else if |parts| == 1 then parts[0]
    else parts[0] + [sep] + Join(parts[1..], sep)
  }

  /** Joining the pieces of a split gives back the string. */
  lemma {:induction false} JoinSplit(s: string, sep: char)
    ensures Join(Split(s, sep), sep) == s
    decreases |s|
  {
    if s != [] {
      var rest := Split(s[1..], sep);
      JoinSplit(s[1..], sep);
      if s[0] == sep {
        assert Split(s, sep) == [""] + rest;
        assert ([""] + rest)[1..] == rest;
      } else if |rest| == 1 {
        assert Split(s, sep) == [[s[0]] + rest[0]];
      } else {
        var parts := Split(s, sep);
        assert parts == [[s[0]] + rest[0]] + rest[1..];
        assert parts[1..] == rest[1..];
        calc {
          Join(parts, sep);
          [s[0]] + rest[0] + [sep] + Join(rest[1..], sep);
          [s[0]] + (rest[0] + [sep] + Join(rest[1..], sep));
          [s[0]] + Join(rest, sep);
          [s[0]] + s[1..];
        }
      }
    }
  }

  /** A string without the separator is one piece. */
  lemma {:induction false} SplitNoSep(s: string, sep: char)
    requires sep !in s
    ensures Split(s, sep) == [s]
    decreases |s|
  {
    if s != [] {
      SplitNoSep(s[1..], sep);
      assert [s[0]] + s[1..] == s;
    }
  }

  /** Splitting `a + sep + b`, where `a` holds no separator, yields `a` and the pieces of `b`. */
  lemma {:induction false} SplitCons(a: string, b: string, sep: char)
    requires sep !in a
    ensures Split(a + [sep] + b, sep) == [a] + Split(b, sep)
    decreases |a|
  {
    var s := a + [sep] + b;
    if a == [] {
      assert s[1..] == b;
    } else {
      assert s[1..] == a[1..] + [sep] + b;
      SplitCons(a[1..], b, sep);
      assert [a[0]] + a[1..] == a;
    }
  }

  /** Splitting a join of separator-free pieces gives back the pieces. */
  lemma {:induction false} SplitJoin(parts: seq<string>, sep: char)
    requires |parts| >= 1
    requires forall i :: 0 <= i < |parts| ==> sep !in parts[i]
    ensures Split(Join(parts, sep), sep) == parts
    decreases |parts|
  {
    if |parts| == 1 {
      SplitNoSep(parts[0], sep);
    } else {
      SplitJoin(parts[1..], sep);
      SplitCons(parts[0], Join(parts[1..], sep), sep);
      assert [parts[0]] + parts[1..] == parts;
    }
  }

  /** With at least two pieces, the string is its first piece, a separator, and the rest joined. */
  lemma SplitFirst(s: string, sep: char)
    requires |Split(s, sep)| >= 2
    ensures s == Split(s, sep)[0] + [sep] + Join(Split(s, sep)[1..], sep)
  {
    JoinSplit(s, sep);
  }

  /** Two or more pieces exactly when the separator occurs. */
  lemma SplitCount(s: string, sep: char)
    ensures |Split(s, sep)| >= 2 <==> sep in s
  {
    var parts := Split(s, sep);
    if |parts| == 1 {
      JoinSplit(s, sep);
      assert s == parts[0];
    } else {
      SplitFirst(s, sep);
      assert s[|parts[0]|] == sep;
    }
  }

  // ---------------------------------------------------------------------------
  // strings.TrimSpace

  /** `unicode.IsSpace`. */
  predicate IsSpace(c: char)
  {
    || ('\t' <= c <= '\r')
    || c == ' '
    || c == '\U{0085}'
    || c == '\U{00A0}'
    || c == '\U{1680}'
    || ('\U{2000}' <= c <= '\U{200A}')
    || c == '\U{2028}'
    || c == '\U{2029}'
    || c == '\U{202F}'
    || c == '\U{205F}'
    || c == '\U{3000}'
  }

  /** Drops the leading white space, and only that. */
  function TrimLeft(s: string): (r: string)
    ensures |r| <= |s| && r == s[|s| - |r|..]
    ensures r == [] || !IsSpace(r[0])
    ensures forall i :: 0 <= i < |s| - |r| ==> IsSpace(s[i])
    decreases |s|
  {
    if s != [] && IsSpace(s[0]) then TrimLeft(s[1..]) else s
  }

  /** Drops the trailing white space, and only that. */
  function TrimRight(s: string): (r: string)
    ensures |r| <= |s| && r == s[..|r|]
    ensures r == [] || !IsSpace(r[|r| - 1])
    ensures forall i :: |r| <= i < |s| ==> IsSpace(s[i])
    decreases |s|
  {
    if s != [] && IsSpace(s[|s| - 1]) then TrimRight(s[..|s| - 1]) else s
  }

  /** Where the text of a string starts: the number of leading white-space characters. */
  function TrimStart(s: string): (a: nat)
    ensures a <= |s|
    ensures forall i :: 0 <= i < a ==> IsSpace(s[i])
    ensures a == |s| || !IsSpace(s[a])
  {
    |s| - |TrimLeft(s)|
  }

  /** `strings.TrimSpace`: the result is the slice of the string from its first non-space
      character, with no white space at either end, and every character dropped after it
      is white space; a string without white space at its ends is left as it is. */
  function TrimSpace(s: string): (r: string)
    ensures TrimStart(s) + |r| <= |s| && r == s[TrimStart(s)..TrimStart(s) + |r|]
    ensures forall i :: TrimStart(s) + |r| <= i < |s| ==> IsSpace(s[i])
    ensures r == [] || (!IsSpace(r[0]) && !IsSpace(r[|r| - 1]))
    ensures s == [] || (!IsSpace(s[0]) && !IsSpace(s[|s| - 1])) ==> r == s
  {
    var l := TrimLeft(s);
    assert l == s[TrimStart(s)..];
    TrimRight(l)
  }

  // ---------------------------------------------------------------------------
  // ASCII case mapping (strings.ToLower / strings.ToUpper on ASCII letters)

  function LowerChar(c: char): char
  {
    if 'A' <= c <= 'Z' then (c as int + 32) as char else c
  }

  function UpperChar(c: char): char
  {
    if 'a' <= c <= 'z' then (c as int - 32) as char else c
  }

  /** The string with every ASCII capital letter replaced by its small letter. */
  function ToLower(s: string): (r: string)
    ensures |r| == |s|
    ensures forall i :: 0 <= i < |s| ==> r[i] == LowerChar(s[i])
    ensures forall i :: 0 <= i < |r| ==> !('A' <= r[i] <= 'Z')
  {
    seq(|s|, i requires 0 <= i < |s| => LowerChar(s[i]))
  }

  /** The string with every ASCII small letter replaced by its capital letter. */
  function ToUpper(s: string): (r: string)
    ensures |r| == |s|
    ensures forall i :: 0 <= i < |s| ==> r[i] == UpperChar(s[i])
    ensures forall i :: 0 <= i < |r| ==> !('a' <= r[i] <= 'z')
  {
    seq(|s|, i requires 0 <= i < |s| => UpperChar(s[i]))
  }

  // ---------------------------------------------------------------------------
  // Byte length of a Go string

  /** The number of bytes UTF-8 uses for the character. */
  function RuneLen(c: char): (n: nat)
    ensures 1 <= n <= 4
    ensures n == 1 <==> c < '\U{0080}'
  {
    if c < '\U{0080}' then 1 else if c < '\U{0800}' then 2 else if c as int < 0x1_0000 then 3 else 4
  }

  /** `len(s)` of a Go string: its length in UTF-8 bytes, never less than its length in
      characters, and equal to it for ASCII text. */
  function Utf8Len(s: string): (n: nat)
    ensures n >= |s|
    ensures (forall i :: 0 <= i < |s| ==> s[i] < '\U{0080}') ==> n == |s|
  {
    if s == [] then 0 else RuneLen(s[0]) + Utf8Len(s[1..])
  }

  // ---------------------------------------------------------------------------
  // strings.Replace(s, pat, rep, -1)

  /** Replaces every non-overlapping occurrence of `pat`, scanning left to right. */
  function ReplaceAll(s: string, pat: string, rep: string): (r: string)
    requires pat != []
    decreases |s|
  {
    if |s| < |pat| then s
    else if s[..|pat|] == pat then rep + ReplaceAll(s[|pat|..], pat, rep)
    else [s[0]] + ReplaceAll(s[1..], pat, rep)
  }

  /** `pat` occurs in `s` at position `i`. */
  predicate OccursAt(s: string, pat: string, i: int)
  {
    0 <= i && i + |pat| <= |s| && s[i..i + |pat|] == pat
  }

  /** A string in which `pat` does not occur is not changed. */
  lemma {:induction false} ReplaceAllAbsent(s: string, pat: string, rep: string)
    requires pat != []
    requires forall i :: !OccursAt(s, pat, i)
    ensures ReplaceAll(s, pat, rep) == s
    decreases |s|
  {
    if |s| >= |pat| {
      assert !OccursAt(s, pat, 0);
      assert s[..|pat|] == s[0..0 + |pat|];
      forall i ensures !OccursAt(s[1..], pat, i) {
        if OccursAt(s[1..], pat, i) {
          assert s[1..][i..i + |pat|] == s[i + 1..i + 1 + |pat|];
          assert OccursAt(s, pat, i + 1);
        }
      }
      ReplaceAllAbsent(s[1..], pat, rep);
    }
  }

  /** Dropping the first character moves every occurrence one place to the left. */
  lemma OccursShift(s: string, pat: string, i: nat)
    requires s != []
    ensures OccursAt(s[1..], pat, i) <==> OccursAt(s, pat, i + 1)
  {
    if i + 1 + |pat| <= |s| {
      assert s[1..][i..i + |pat|] == s[i + 1..i + 1 + |pat|];
    }
  }

  /** The leftmost occurrence is replaced, and the scan goes on right after it: text
      before the first occurrence is kept, the occurrence becomes `rep`, and the rest is
      replaced in turn. */
  lemma {:induction false} ReplaceAllFirst(a: string, pat: string, rep: string, b: string)
    requires pat != []
    requires forall i :: 0 <= i < |a| ==> !OccursAt(a + pat + b, pat, i)
    ensures ReplaceAll(a + pat + b, pat, rep) == a + rep + ReplaceAll(b, pat, rep)
    decreases |a|
  {
    var s := a + pat + b;
    if a == [] {
      assert s == pat + b;
      assert s[..|pat|] == pat && s[|pat|..] == b;
    } else {
      assert s[..|pat|] != pat by {
        assert !OccursAt(s, pat, 0);
        assert s[0..0 + |pat|] == s[..|pat|];
      }
      var t := s[1..];
      assert ReplaceAll(s, pat, rep) == [s[0]] + ReplaceAll(t, pat, rep);
      assert t == a[1..] + pat + b;
      forall i | 0 <= i < |a[1..]|
        ensures !OccursAt(a[1..] + pat + b, pat, i)
      {
        OccursShift(s, pat, i);
      }
      ReplaceAllFirst(a[1..], pat, rep, b);
      assert [s[0]] + a[1..] == a;
    }
  }

  // ---------------------------------------------------------------------------
  // strconv.Atoi

  /** One step of `strconv.ParseUint(s, 10, 64)`: the value so far, or the error it stopped at. */
  datatype Scan = Digits(v: nat) | SyntaxError | RangeError

  predicate IsDigit(c: char)
  {
    '0' <= c <= '9'
  }

  /** `strconv.ParseUint(d, 10, 64)` on a non-empty digit string, scanned left to right: the first
      character that is not a decimal digit is a syntax error, the first digit that takes the value
      past 2^64 - 1 a range error, whichever comes first. */
  function ScanUint(d: string): (r: Scan)
    ensures r.Digits? ==> r.v <= MaxUint64 && forall i :: 0 <= i < |d| ==> IsDigit(d[i])
    ensures (exists i :: 0 <= i < |d| && !IsDigit(d[i])) ==> !r.Digits?
    ensures |d| > 0 && !IsDigit(d[0]) ==> r == SyntaxError
  {
    if d == [] then Digits(0)
    else
      match ScanUint(d[..|d| - 1])
      case Digits(v) =>
        var c := d[|d| - 1];
        if !IsDigit(c) then SyntaxError
        else if v * 10 + (c as int - '0' as int) > MaxUint64 then RangeError
        else Digits(v * 10 + (c as int - '0' as int))
      case other => other
  }

  /** What `strconv.Atoi` returns: a value with a nil error, a clamped value with a range
      error, or 0 with a syntax error. */
  datatype AtoiResult = Parsed(n: int) | OutOfRange(clamped: int) | Invalid
  {
    /** The integer Atoi returns, whatever its error. */
    function Value(): int
    {
      match this
      case Parsed(n) => n
      case OutOfRange(c) => c
      case Invalid => 0
    }
  }

  /** `strconv.Atoi` on a 64-bit platform: an optional sign and decimal digits. */
  function Atoi(s: string): (r: AtoiResult)
    ensures r.Parsed? ==> MinInt64 <= r.n <= MaxInt64
    ensures r.OutOfRange? ==> r.clamped == MaxInt64 || r.clamped == MinInt64
    ensures s == [] || (s[0] != '-' && s[0] != '+' && !IsDigit(s[0])) ==> r == Invalid
  {
    if s == [] then Invalid
    else
      var neg := s[0] == '-';
      var digits := if s[0] == '-' || s[0] == '+' then s[1..] else s;
      if digits == [] then Invalid
      else
        match ScanUint(digits)
        case SyntaxError => Invalid
        case RangeError => if neg then OutOfRange(MinInt64) else OutOfRange(MaxInt64)
        case Digits(u) =>
          if !neg && u > MaxInt64 then OutOfRange(MaxInt64)
          else if neg && u > -MinInt64 then OutOfRange(MinInt64)
          else
            var value: int := if neg then 0 - (u as int) else u as int;
            Parsed(value)
  }

  /** The decimal numeral of `n`, without sign or leading zeros. */
  function Decimal(n: nat): (r: string)
    ensures |r| > 0
    ensures forall i :: 0 <= i < |r| ==> IsDigit(r[i])
  {
    if n < 10 then [('0' as int + n) as char]
    else Decimal(n / 10) + [('0' as int + n % 10) as char]
  }

  lemma {:induction false} ScanDecimal(n: nat)
    requires n <= MaxUint64
    ensures ScanUint(Decimal(n)) == Digits(n)
  {
    var d := Decimal(n);
    if n < 10 {
      assert d[..|d| - 1] == [];
    } else {
      ScanDecimal(n / 10);
      assert d[..|d| - 1] == Decimal(n / 10);
    }
  }

  /** A numeral past the 64-bit range but within 64 unsigned bits is a range error, with
      the maximum `int` returned alongside it. */
  lemma AtoiOverflow(n: nat)
    requires MaxInt64 < n <= MaxUint64
    ensures Atoi(Decimal(n)) == OutOfRange(MaxInt64)
  {
    ScanDecimal(n);
  }

  /** Atoi reads back every 64-bit value that Decimal renders. */
  lemma AtoiDecimal(n: nat)
    requires n <= MaxInt64
    ensures Atoi(Decimal(n)) == Parsed(n)
  {
    ScanDecimal(n);
  }
}
