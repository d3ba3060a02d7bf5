/** Text helpers: whitespace splitting as `str.split()` does it, Python's
    `str(int)` and its inverse, `os.path.join`, and the abstract rendering of
    floating-point numbers. */
module Text {
  import opened Common

  /** The separators `str.split()` and `str.strip()` act on (the ASCII ones). */
  predicate IsBlank(c: char) {
    c == ' ' || c == '\t' || c == '\r' || c == '\n'
  }

  /** A character that may occur in a rendered number: neither a separator
      nor one of the delimiters of the simulator's input grammar. */
  predicate IsWordChar(c: char) {
    !IsBlank(c) && c != '/' && c != '!' && c != ',' && c != '\''
  }

  /** No character of `s` is a separator. */
  predicate NonBlank(s: string)
    decreases |s|
  {
    s == [] || (!IsBlank(s[0]) && NonBlank(s[1..]))
  }

  /** Every character of `s` is a separator. */
  predicate AllBlank(s: string)
    decreases |s|
  {
    s == [] || (IsBlank(s[0]) && AllBlank(s[1..]))
  }

  predicate WordChars(s: string)
    decreases |s|
  {
    s == [] || (IsWordChar(s[0]) && WordChars(s[1..]))
  }

  /** A rendered number: non-empty, without separators or delimiters. */
  predicate IsToken(s: string) {
    |s| > 0 && WordChars(s)
  }

  predicate NoNewline(s: string) {
    forall i :: 0 <= i < |s| ==> s[i] != '\n'
  }

  // ---------------------------------------------------------------------
  // Splitting on whitespace

  /** The number of leading non-blank characters of `s`. */
  function WordLength(s: string): (n: nat)
    ensures n <= |s|
  {
    if s == [] || IsBlank(s[0]) then 0 else 1 + WordLength(s[1..])
  }

  /** `s.split()`: the maximal runs of non-blank characters, in order. */
  function Tokens(s: string): seq<string>
    decreases |s|
  {
    if s == [] then []
    else if IsBlank(s[0]) then Tokens(s[1..])
    else
      var n := WordLength(s);
      [s[..n]] + Tokens(s[n..])
  }

  lemma {:induction false} WordLengthOfWord(a: string, rest: string)
    requires NonBlank(a)
    requires rest == [] || IsBlank(rest[0])
    ensures WordLength(a + rest) == |a|
  {
    if a == [] {
      assert a + rest == rest;
    } else {
      assert (a + rest)[1..] == a[1..] + rest;
      WordLengthOfWord(a[1..], rest);
    }
  }

  /** Leading separators do not change the split. */
  lemma {:induction false} TokensSkipBlanks(g: string, rest: string)
    requires AllBlank(g)
    ensures Tokens(g + rest) == Tokens(rest)
  {
    if g != [] {
      var s := g + rest;
      assert s != [] && s[0] == g[0] && IsBlank(s[0]);
      assert s[1..] == g[1..] + rest;
      assert Tokens(s) == Tokens(s[1..]);
      TokensSkipBlanks(g[1..], rest);
    } else {
      assert g + rest == rest;
    }
  }

  /** A word followed by a separator (or by nothing) is split off whole. */
  lemma WordThenRest(a: string, rest: string)
    requires |a| > 0 && NonBlank(a)
    requires rest == [] || IsBlank(rest[0])
    ensures Tokens(a + rest) == [a] + Tokens(rest)
  {
    WordLengthOfWord(a, rest);
    var s := a + rest;
    assert s[..|a|] == a;
    assert s[|a|..] == rest;
  }

  /** `(a + (g + rest)).split() == [a] + rest.split()` for a word `a` and a
      non-empty run of separators `g`. */
  lemma TokensCons(a: string, g: string, rest: string)
    requires |a| > 0 && NonBlank(a)
    requires |g| > 0 && AllBlank(g)
    ensures Tokens(a + (g + rest)) == [a] + Tokens(rest)
  {
    WordThenRest(a, g + rest);
    TokensSkipBlanks(g, rest);
  }

  lemma TokensOfWord(a: string)
    requires |a| > 0 && NonBlank(a)
    ensures Tokens(a) == [a]
  {
    assert a + [] == a;
    WordThenRest(a, []);
  }

  lemma TokenIsWord(a: string)
    requires IsToken(a)
    ensures |a| > 0 && NonBlank(a)
  {
    WordCharsNonBlank(a);
  }

  lemma {:induction false} WordCharsNonBlank(a: string)
    requires WordChars(a)
    ensures NonBlank(a)
    decreases |a|
  {
    if a != [] {
      WordCharsNonBlank(a[1..]);
    }
  }

  // ---------------------------------------------------------------------
  // Integers: Python's str(int) and int(str)

  predicate IsDigit(c: char) {
    '0' as int <= c as int <= '9' as int
  }

  predicate AllDigits(s: string) {
    forall i :: 0 <= i < |s| ==> IsDigit(s[i])
  }

  function DigitChar(d: nat): (c: char)
    requires d < 10
    ensures IsDigit(c) && c as int - '0' as int == d
  {
    ('0' as int + d) as char
  }

  /** The decimal digits of `n`, most significant first, without leading zeros. */
  function NatStr(n: nat): (s: string)
    ensures |s| > 0 && AllDigits(s)
    ensures |s| > 1 ==> s[0] != '0'
  {
    if n < 10 then [DigitChar(n)]
    else NatStr(n / 10) + [DigitChar(n % 10)]
  }

  /** `str(n)` for a Python int. */
  function IntStr(n: int): (s: string)
    ensures IsToken(s)
  {
    if n < 0 then
      var d := NatStr(-n);
      DigitsAreWordChars(d);
      assert ("-" + d)[1..] == d;
      "-" + d
    else
      DigitsAreWordChars(NatStr(n));
      NatStr(n)
  }

  lemma {:induction false} DigitsAreWordChars(s: string)
    requires AllDigits(s)
    ensures WordChars(s)
    decreases |s|
  {
    if s != [] {
      DigitsAreWordChars(s[1..]);
    }
  }

  /** The value of a string of decimal digits. */
  function DigitsValue(s: string): nat
    requires AllDigits(s)
  {
    if s == [] then 0
    else 10 * DigitsValue(s[..|s| - 1]) + DigitValue(s[|s| - 1])
  }

  function DigitValue(c: char): nat
    requires IsDigit(c)
  {
    c as int - '0' as int
  }

  /** `int(s)` for an optional sign followed by decimal digits; `None`
      stands for the `ValueError` Python raises on anything else. */
  function ParseInt(s: string): Option<int> {
    if |s| > 1 && s[0] == '-' && AllDigits(s[1..]) then Some(0 - DigitsValue(s[1..]) as int)
    else if |s| > 1 && s[0] == '+' && AllDigits(s[1..]) then Some(DigitsValue(s[1..]))
    else if |s| > 0 && AllDigits(s) then Some(DigitsValue(s))
    else None
  }

  lemma {:induction false} NatStrValue(n: nat)
    ensures DigitsValue(NatStr(n)) == n
  {
    if n >= 10 {
      var s := NatStr(n);
      assert s[..|s| - 1] == NatStr(n / 10);
      NatStrValue(n / 10);
    }
  }

  /** Reading back a rendered integer gives the integer. */
  lemma IntStrRoundTrip(n: int)
    ensures ParseInt(IntStr(n)) == Some(n)
  {
    if n < 0 {
      var s := IntStr(n);
      assert s[1..] == NatStr(-n);
      NatStrValue(-n);
    } else {
      NatStrValue(n);
    }
  }

  // ---------------------------------------------------------------------
  // Paths

  /** `os.path.join(dir, name)` for one component: an absolute `name`
      replaces `dir`, and a separator is inserted only where `dir` lacks one. */
  function JoinPath(dir: string, name: string): (p: string)
    ensures |name| <= |p| && p[|p| - |name|..] == name
  {
    if |name| > 0 && name[0] == '/' then name
    else if dir == [] || dir[|dir| - 1] == '/' then dir + name
    else dir + "/" + name
  }

  /** Two files with the same base name and different extensions of the same
      length never share a path. */
  lemma DistinctExtensions(dir: string, base: string, e1: string, e2: string)
    requires |e1| == |e2| && e1 != e2
    ensures JoinPath(dir, base + e1) != JoinPath(dir, base + e2)
  {
    var p1, p2 := JoinPath(dir, base + e1), JoinPath(dir, base + e2);
    var k := |base| + |e1|;
    assert p1[|p1| - k..] == base + e1;
    assert p2[|p2| - k..] == base + e2;
    assert (base + e1)[|base|..] == e1;
    assert (base + e2)[|base|..] == e2;
  }

  // ---------------------------------------------------------------------
  // Floating-point rendering

  /** How the source renders a float: `fixed1` is `f"{x:.1f}"`, `fixed2` is
      `f"{x:.2f}"`, `show` is `f"{x}"`.  Exact decimal rounding is not part of
      the model; each is an arbitrary function of the value. */
  datatype Format = Format(fixed1: real -> string, fixed2: real -> string, show: real -> string)

  /** Each rendering of `x` is a single token. */
  predicate Renders(fmt: Format, x: real) {
    IsToken(fmt.fixed1(x)) && IsToken(fmt.fixed2(x)) && IsToken(fmt.show(x))
  }

  /** Every rendering of every value is a single token. */
  ghost predicate ValidFormat(fmt: Format) {
    forall x :: Renders(fmt, x)
  }
}
