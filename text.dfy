/** The few operations of Go's `strings` and `strconv` packages that the
    converter uses, over `string` = `seq<char>`. */
module Text {
  import opened Wrappers

  /** `unicode.IsSpace`: the characters with the Unicode White_Space property
      (tab, line feed, vertical tab, form feed, carriage return, space, NEL,
      no-break space, and the separators above U+167F). */
  predicate IsSpace(c: char)
  {
    c == ' ' || ('\t' <= c <= '\r') || c == '\U{0085}' || c == '\U{00A0}' ||
    c == '\U{1680}' || ('\U{2000}' <= c <= '\U{200A}') || c == '\U{2028}' ||
    c == '\U{2029}' || c == '\U{202F}' || c == '\U{205F}' || c == '\U{3000}'
  }

  /** Neither the first nor the last character is white space. */
  predicate IsTrimmed(s: string)
  {
    s == [] || (!IsSpace(s[0]) && !IsSpace(s[|s| - 1]))
  }

  /** Every character is white space (this includes the empty string). */
  predicate IsBlank(s: string)
  {
    forall i :: 0 <= i < |s| ==> IsSpace(s[i])
  }

  /** Removes the leading white space. */
  function TrimLeftSpace(s: string): string
  {
    if s != [] && IsSpace(s[0]) then TrimLeftSpace(s[1..]) else s
  }

  /** Removes the trailing white space. */
  function TrimRightSpace(s: string): string
  {
    if s != [] && IsSpace(s[|s| - 1]) then TrimRightSpace(s[..|s| - 1]) else s
  }

  /** `strings.TrimSpace`. */
  function TrimSpace(s: string): string
  {
    TrimRightSpace(TrimLeftSpace(s))
  }

  /** Trimming on the left gives the longest suffix of `s` that does not start with white space. */
  lemma {:induction false} TrimLeftSpaceSpec(s: string)
    ensures var r := TrimLeftSpace(s);
      |r| <= |s| && r == s[|s| - |r|..] &&
      (forall i :: 0 <= i < |s| - |r| ==> IsSpace(s[i])) &&
      (r == [] || !IsSpace(r[0]))
  {
    if s != [] && IsSpace(s[0]) {
      var t := s[1..];
      TrimLeftSpaceSpec(t);
      var r := TrimLeftSpace(t);
      assert TrimLeftSpace(s) == r;
      assert t[|t| - |r|..] == s[|s| - |r|..];
      forall i | 0 <= i < |s| - |r|
        ensures IsSpace(s[i])
      {
        if i > 0 {
          assert s[i] == t[i - 1];
        }
      }
    }
  }

  /** Trimming on the right gives the longest prefix of `s` that does not end with white space. */
  lemma {:induction false} TrimRightSpaceSpec(s: string)
    ensures var r := TrimRightSpace(s);
      |r| <= |s| && r == s[..|r|] &&
      (forall i :: |r| <= i < |s| ==> IsSpace(s[i])) &&
      (r == [] || !IsSpace(r[|r| - 1]))
  {
    if s != [] && IsSpace(s[|s| - 1]) {
      TrimRightSpaceSpec(s[..|s| - 1]);
    }
  }

  /** `TrimSpace` yields a trimmed string, empty exactly when the input is blank,
      and leaves an already trimmed string as it is. */
  lemma TrimSpaceSpec(s: string)
    ensures IsTrimmed(TrimSpace(s))
    ensures |TrimSpace(s)| <= |s|
    ensures TrimSpace(s) == [] <==> IsBlank(s)
    ensures IsTrimmed(s) ==> TrimSpace(s) == s
  {
    TrimLeftSpaceSpec(s);
    TrimRightSpaceSpec(TrimLeftSpace(s));
  }

  /** Trimming is idempotent. */
  lemma TrimSpaceIdempotent(s: string)
    ensures TrimSpace(TrimSpace(s)) == TrimSpace(s)
  {
    TrimSpaceSpec(s);
    TrimSpaceSpec(TrimSpace(s));
  }

  /** ASCII upper-case letters map to lower case; every other character is unchanged. */
  function LowerChar(c: char): char
  {
    if 'A' <= c <= 'Z' then (c as int + 32) as char else c
  }

  /** `strings.ToLower`, restricted to ASCII case mapping. */
  function ToLower(s: string): string
  {
    seq(|s|, i requires 0 <= i < |s| => LowerChar(s[i]))
  }

  /** `strings.EqualFold`, restricted to ASCII case folding. */
  predicate EqualFold(a: string, b: string)
  {
    ToLower(a) == ToLower(b)
  }

  /** `strings.TrimPrefix`: removes `prefix` once if `s` starts with it. */
  function TrimPrefix(s: string, prefix: string): string
  {
    if prefix <= s then s[|prefix|..] else s
  }

  /** `strings.TrimRight(s, "/")`: removes every trailing slash. */
  function TrimRightSlashes(s: string): (r: string)
    ensures |r| <= |s| && r == s[..|r|]
    ensures forall i :: |r| <= i < |s| ==> s[i] == '/'
    ensures r == [] || r[|r| - 1] != '/'
  {
    if s != [] && s[|s| - 1] == '/' then TrimRightSlashes(s[..|s| - 1]) else s
  }

  predicate IsDigit(c: char)
  {
    '0' <= c <= '9'
  }

  predicate AllDigits(s: string)
  {
    forall i :: 0 <= i < |s| ==> IsDigit(s[i])
  }

  /** The value of a string of decimal digits, most significant first. */
  function DigitsValue(s: string): nat
    requires AllDigits(s)
  {
    if s == [] then 0 else DigitsValue(s[..|s| - 1]) * 10 + (s[|s| - 1] as int - '0' as int)
  }

  const MinInt64: int := -0x8000_0000_0000_0000
  const MaxInt64: int := 0x7FFF_FFFF_FFFF_FFFF

  /** `strconv.Atoi` on a 64-bit platform: an optional sign followed by at least
      one ASCII digit, with a value in the range of `int`; anything else is an error. */
  function Atoi(s: string): (r: Option<int>)
    ensures r.Some? ==> s != [] && MinInt64 <= r.value <= MaxInt64
  {
    if s == [] then None
    else
      var negative := s[0] == '-';
      var digits := if s[0] == '-' || s[0] == '+' then s[1..] else s;
      if digits == [] || !AllDigits(digits) then None
      else
        var n: int := DigitsValue(digits);
        var v := if negative then -n else n;
        if MinInt64 <= v <= MaxInt64 then Some(v) else None
  }

  /** Decimal digits of a natural number without leading zeros (Go's `strconv.Itoa` for `n >= 0`). */
  function Decimal(n: nat): (r: string)
    ensures r != [] && AllDigits(r)
    ensures |r| > 1 ==> r[0] != '0'
  {
    if n < 10 then [('0' as int + n) as char]
    else Decimal(n / 10) + [('0' as int + n % 10) as char]
  }

  lemma {:induction false} DigitsOfDecimal(n: nat)
    ensures DigitsValue(Decimal(n)) == n
  {
    if n >= 10 {
      var d := Decimal(n);
      assert d[..|d| - 1] == Decimal(n / 10);
      DigitsOfDecimal(n / 10);
    }
  }

  /** Parsing the decimal form of a non-negative `int` gives the number back. */
  lemma AtoiDecimal(n: nat)
    requires n <= MaxInt64
    ensures Atoi(Decimal(n)) == Some(n)
  {
    DigitsOfDecimal(n);
  }

  /** `strconv.Atoi` also accepts a leading sign: "-" followed by the decimal form
      gives the negated number. */
  lemma AtoiNegativeDecimal(n: nat)
    requires n <= MaxInt64
    ensures Atoi("-" + Decimal(n)) == Some(-(n as int))
  {
    var s := "-" + Decimal(n);
    assert s[1..] == Decimal(n);
    DigitsOfDecimal(n);
  }

  /** Any character other than an ASCII digit after the optional sign, white space
      included, makes `strconv.Atoi` fail. */
  lemma AtoiRejectsNonDigit(s: string, i: int)
    requires 0 <= i < |s| && !IsDigit(s[i])
    requires i != 0 || (s[0] != '-' && s[0] != '+')
    ensures Atoi(s) == None
  {
    if s[0] == '-' || s[0] == '+' {
      assert s[1..][i - 1] == s[i];
    }
  }

  /** A decimal beyond the range of a 64-bit `int` is a range error. */
  lemma AtoiOutOfRange(n: nat)
    requires n > MaxInt64
    ensures Atoi(Decimal(n)) == None
  {
    DigitsOfDecimal(n);
  }
}
