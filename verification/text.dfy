/** The pieces of Go's `strings`, `strconv` and `fmt` that the core relies on. */
module Text {
  import opened Wrappers

  /** Characters for which Go's `unicode.IsSpace` holds. */
  const Spaces: set<char> :=
    {'\t', '\n', '\U{0B}', '\U{0C}', '\r', ' ', '\U{85}', '\U{A0}', '\U{1680}',
     '\U{2000}', '\U{2001}', '\U{2002}', '\U{2003}', '\U{2004}', '\U{2005}', '\U{2006}',
     '\U{2007}', '\U{2008}', '\U{2009}', '\U{200A}', '\U{2028}', '\U{2029}', '\U{202F}',
     '\U{205F}', '\U{3000}'}

  /** How many characters of `cut` start `s`. */
  function LeftCut(s: string, cut: set<char>): (n: nat)
    ensures n <= |s|
    ensures forall k :: 0 <= k < n ==> s[k] in cut
    ensures n < |s| ==> s[n] !in cut
  {
    if s != [] && s[0] in cut then
      var n := 1 + LeftCut(s[1..], cut);
      assert forall k :: 1 <= k < n ==> s[k] == s[1..][k - 1];
      n
    else 0
  }

  /** `strings.TrimLeft`: drop the longest prefix made of characters of `cut`. */
  function TrimLeft(s: string, cut: set<char>): string
  {
    s[LeftCut(s, cut)..]
  }

  /** How long `s` is once the characters of `cut` that end it are dropped. */
  function RightKeep(s: string, cut: set<char>): (n: nat)
    ensures n <= |s|
    ensures forall k :: n <= k < |s| ==> s[k] in cut
    ensures n > 0 ==> s[n - 1] !in cut
  {
    if s != [] && s[|s| - 1] in cut then
      var n := RightKeep(s[..|s| - 1], cut);
      assert forall k :: n <= k < |s| - 1 ==> s[k] == s[..|s| - 1][k];
      n
    else |s|
  }

  /** `strings.TrimRight`: drop the longest suffix made of characters of `cut`. */
  function TrimRight(s: string, cut: set<char>): string
  {
    s[..RightKeep(s, cut)]
  }

  /** `strings.TrimSpace`. */
  function TrimSpace(s: string): string
  {
    TrimRight(TrimLeft(s, Spaces), Spaces)
  }

  /** What TrimSpace promises: a slice of `s` with only spaces cut off both ends. */
  lemma TrimSpaceSpec(s: string)
    ensures exists i, j :: TrimmedSlice(s, i, j) && TrimSpace(s) == s[i..j]
    ensures TrimSpace(s) != [] ==> (TrimSpace(s)[0] !in Spaces && TrimSpace(s)[|TrimSpace(s)| - 1] !in Spaces)
  {
    var i := LeftCut(s, Spaces);
    var l := s[i..];
    var n := RightKeep(l, Spaces);
    var j := i + n;
    assert TrimSpace(s) == l[..n] == s[i..j];
    forall k | j <= k < |s| ensures s[k] in Spaces {
      assert s[k] == l[k - i];
    }
    assert TrimmedSlice(s, i, j);
  }

  /** `s[i..j]` is what is left of `s` once spaces are cut off both ends. */
  ghost predicate TrimmedSlice(s: string, i: int, j: int)
  {
    && 0 <= i <= j <= |s|
    && (forall k :: 0 <= k < i ==> s[k] in Spaces)
    && (forall k :: j <= k < |s| ==> s[k] in Spaces)
  }

  /** Trimming twice is trimming once. */
  lemma TrimSpaceIdempotent(s: string)
    ensures TrimSpace(TrimSpace(s)) == TrimSpace(s)
  {
    var t := TrimSpace(s);
    TrimSpaceSpec(s);
    if t != [] {
      assert TrimLeft(t, Spaces) == t;
      assert TrimRight(t, Spaces) == t;
    }
  }

  /** `sep` occurs in `s` at position `i`. */
  ghost predicate OccursAt(s: string, sep: string, i: int)
  {
    0 <= i && i + |sep| <= |s| && s[i..i + |sep|] == sep
  }

  /** `strings.Index` for a non-empty separator, searching from `from`. */
  function IndexFrom(s: string, sep: string, from: nat): (r: Option<nat>)
    requires |sep| > 0
    ensures r.Some? ==> (from <= r.value && OccursAt(s, sep, r.value)
      && forall k :: from <= k < r.value ==> !OccursAt(s, sep, k))
    ensures r.None? ==> forall k :: from <= k ==> !OccursAt(s, sep, k)
    decreases |s| - from
  {
    if from + |sep| > |s| then None
    else if s[from..from + |sep|] == sep then Some(from)
    else IndexFrom(s, sep, from + 1)
  }

  /** `strings.SplitN(s, sep, 2)`: cut `s` at the first occurrence of `sep`. */
  function SplitFirst(s: string, sep: string): (parts: seq<string>)
    requires |sep| > 0
    ensures 1 <= |parts| <= 2
  {
    match IndexFrom(s, sep, 0)
    case None => [s]
    case Some(i) => [s[..i], s[i + |sep|..]]
  }

  /** SplitN with n = 2 is undone by joining the parts with `sep`. */
  lemma {:induction false} SplitFirstJoin(s: string, sep: string)
    requires |sep| > 0
    ensures |SplitFirst(s, sep)| == 1 ==> (SplitFirst(s, sep)[0] == s
      && forall k :: 0 <= k ==> !OccursAt(s, sep, k))
    ensures |SplitFirst(s, sep)| == 2 ==> (SplitFirst(s, sep)[0] + sep + SplitFirst(s, sep)[1] == s
      && forall k :: 0 <= k < |SplitFirst(s, sep)[0]| ==> !OccursAt(s, sep, k))
  {
    var r := IndexFrom(s, sep, 0);
    if r.Some? {
      var i := r.value;
      assert s == s[..i] + s[i..i + |sep|] + s[i + |sep|..];
    }
  }

  ghost predicate IsDigit(c: char)
  {
    '0' <= c <= '9'
  }

  ghost predicate AllDigits(s: string)
  {
    forall k :: 0 <= k < |s| ==> IsDigit(s[k])
  }

  function DigitChar(d: nat): char
    requires d < 10
  {
    ('0' as int + d) as char
  }

  /** `fmt`'s `%d` of a natural number. */
  function NatToDecimal(n: nat): (r: string)
    ensures |r| > 0 && AllDigits(r)
    ensures |r| > 1 ==> r[0] != '0'
  {
    if n < 10 then [DigitChar(n)] else NatToDecimal(n / 10) + [DigitChar(n % 10)]
  }

  /** `fmt`'s `%d` (and `strconv.Itoa`) of any integer. */
  function IntToDecimal(i: int): string
  {
    if i < 0 then "-" + NatToDecimal(-i) else NatToDecimal(i)
  }

  /** The decimal value of a run of ASCII digits (leading zeros allowed). */
  function DecimalValue(s: string): (n: nat)
    requires AllDigits(s)
  {
    if s == [] then 0 else DecimalValue(s[..|s| - 1]) * 10 + (s[|s| - 1] as int - '0' as int)
  }

  /** `%d` and the decimal parse are inverse: a version written into the log reads back. */
  lemma {:induction false} DecimalRoundTrip(n: nat)
    ensures DecimalValue(NatToDecimal(n)) == n
  {
    if n >= 10 {
      var s := NatToDecimal(n);
      assert s[..|s| - 1] == NatToDecimal(n / 10);
      DecimalRoundTrip(n / 10);
    }
  }

  /** The sign shows in the first character. */
  lemma SignVisible(i: int)
    ensures |IntToDecimal(i)| > 0 && (IntToDecimal(i)[0] == '-' <==> i < 0)
  {
    if i >= 0 {
      assert IsDigit(NatToDecimal(i)[0]);
    }
  }

  /** So `%d` is injective: two different versions never print alike. */
  lemma IntToDecimalInjective(a: int, b: int)
    requires IntToDecimal(a) == IntToDecimal(b)
    ensures a == b
  {
    SignVisible(a);
    SignVisible(b);
    var s := IntToDecimal(a);
    if a < 0 {
      assert s[1..] == NatToDecimal(-a);
      assert s[1..] == NatToDecimal(-b);
      DecimalRoundTrip(-a);
      DecimalRoundTrip(-b);
    } else {
      DecimalRoundTrip(a);
      DecimalRoundTrip(b);
    }
  }
}
