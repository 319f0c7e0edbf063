/** Text primitives of the OBJ reader: the `split` tokeniser, its inverse
    `Join`, and the decimal conversion `stoi` applies to index tokens. */
module Tokens {
  import opened Results

  // ---------------------------------------------------------------------
  // split
  // ---------------------------------------------------------------------

  /** The pending token `cur` as a list of zero or one tokens: a piece that
      `getline` returned empty is dropped. */
  function Flush(cur: string): (r: seq<string>)
    ensures cur == [] ==> r == []
    ensures cur != [] ==> r == [cur]
  {
    if cur == [] then [] else [cur]
  }

  /** Tokens of `s` when the characters before it have already formed the
      pending token `cur`; one `getline` call reads up to the next `d`. */
  function SplitFrom(s: string, d: char, cur: string): seq<string>
    decreases |s|
  {
    if s == [] then Flush(cur)
    else if s[0] == d then Flush(cur) + SplitFrom(s[1..], d, [])
    else SplitFrom(s[1..], d, cur + [s[0]])
  }

  /** `split(str, delimiter)`: the maximal delimiter-free pieces of `s`, empty
      pieces dropped, left to right. */
  function Split(s: string, d: char): seq<string> {
    SplitFrom(s, d, [])
  }

  /** A token list `split` can produce: no token empty, none containing `d`. */
  predicate WellFormedTokens(ts: seq<string>, d: char) {
    forall i :: 0 <= i < |ts| ==> ts[i] != [] && d !in ts[i]
  }

  /** The tokens joined with one delimiter between neighbours. */
  function Join(ts: seq<string>, d: char): string
    decreases |ts|
  {
    if |ts| == 0 then []
    else if |ts| == 1 then ts[0]
    else ts[0] + [d] + Join(ts[1..], d)
  }

  /** All tokens glued together. */
  function Concat(ts: seq<string>): string
    decreases |ts|
  {
    if ts == [] then [] else ts[0] + Concat(ts[1..])
  }

  /** `s` with every occurrence of `d` removed. */
  function Strip(s: string, d: char): string
    decreases |s|
  {
    if s == [] then []
    else (if s[0] == d then [] else [s[0]]) + Strip(s[1..], d)
  }

  /** The tokenising loop of `split`: `getline` reads characters up to the
      delimiter, and a non-empty piece is pushed onto the result. */
  method SplitTokens(s: string, d: char) returns (tokens: seq<string>)
    ensures tokens == Split(s, d)
  {
    tokens := [];
    var tok: string := [];
    var i := 0;
    while i < |s|
      invariant 0 <= i <= |s|
      invariant tokens + SplitFrom(s[i..], d, tok) == Split(s, d)
    {
      if s[i] == d {
        assert SplitFrom(s[i..], d, tok) == Flush(tok) + SplitFrom(s[i + 1..], d, []);
        if |tok| > 0 {
          tokens := tokens + [tok];
        }
        tok := [];
      } else {
        tok := tok + [s[i]];
      }
      i := i + 1;
    }
    if |tok| > 0 {
      tokens := tokens + [tok];
    }
  }

  /** Every token `split` produces is non-empty and free of the delimiter. */
  lemma {:induction false} SplitFromWellFormed(s: string, d: char, cur: string)
    requires d !in cur
    ensures WellFormedTokens(SplitFrom(s, d, cur), d)
    decreases |s|
  {
    if s == [] {
    } else if s[0] == d {
      SplitFromWellFormed(s[1..], d, []);
    } else {
      SplitFromWellFormed(s[1..], d, cur + [s[0]]);
    }
  }

  lemma SplitWellFormed(s: string, d: char)
    ensures WellFormedTokens(Split(s, d), d)
  {
    SplitFromWellFormed(s, d, []);
  }

  lemma {:induction false} ConcatAppend(a: seq<string>, b: seq<string>)
    ensures Concat(a + b) == Concat(a) + Concat(b)
    decreases |a|
  {
    if a == [] {
      assert a + b == b;
    } else {
      assert (a + b)[1..] == a[1..] + b;
      ConcatAppend(a[1..], b);
    }
  }

  /** Order preservation: reading the tokens left to right gives back the
      characters of `s` other than the delimiter, in their original order. */
  lemma {:induction false} ConcatSplitFrom(s: string, d: char, cur: string)
    ensures Concat(SplitFrom(s, d, cur)) == cur + Strip(s, d)
    decreases |s|
  {
    ConcatFlush(cur);
    if s == [] {
    } else if s[0] == d {
      ConcatAppend(Flush(cur), SplitFrom(s[1..], d, []));
      ConcatSplitFrom(s[1..], d, []);
      assert Strip(s, d) == Strip(s[1..], d);
    } else {
      ConcatSplitFrom(s[1..], d, cur + [s[0]]);
      assert Strip(s, d) == [s[0]] + Strip(s[1..], d);
      assert cur + [s[0]] + Strip(s[1..], d) == cur + Strip(s, d);
    }
  }

  lemma ConcatFlush(cur: string)
    ensures Concat(Flush(cur)) == cur
  {
    if cur != [] {
      assert Concat([cur]) == cur + Concat([cur][1..]);
      assert [cur][1..] == [];
    }
  }

  lemma ConcatSplit(s: string, d: char)
    ensures Concat(Split(s, d)) == Strip(s, d)
  {
    ConcatSplitFrom(s, d, []);
  }

  /** A delimiter-free prefix only lengthens the pending token. */
  lemma {:induction false} SplitFromPrefix(x: string, t: string, d: char, cur: string)
    requires d !in x
    ensures SplitFrom(x + t, d, cur) == SplitFrom(t, d, cur + x)
    decreases |x|
  {
    if x == [] {
      assert x + t == t;
      assert cur + x == cur;
    } else {
      assert (x + t)[0] == x[0];
      assert (x + t)[1..] == x[1..] + t;
      assert cur + [x[0]] + x[1..] == cur + x;
      SplitFromPrefix(x[1..], t, d, cur + [x[0]]);
    }
  }

  /** A non-empty delimiter-free token followed by a delimiter is split off. */
  lemma SplitLeadingToken(x: string, t: string, d: char)
    requires x != [] && d !in x
    ensures Split(x + [d] + t, d) == [x] + Split(t, d)
  {
    assert x + [d] + t == x + ([d] + t);
    SplitFromPrefix(x, [d] + t, d, []);
    assert [] + x == x;
    assert ([d] + t)[1..] == t;
  }

  /** A leading delimiter yields nothing. */
  lemma SplitLeadingDelimiter(t: string, d: char)
    ensures Split([d] + t, d) == Split(t, d)
  {
    assert ([d] + t)[1..] == t;
  }

  /** A non-empty delimiter-free string is one token. */
  lemma SplitSingle(x: string, d: char)
    requires x != [] && d !in x
    ensures Split(x, d) == [x]
  {
    SplitFromPrefix(x, [], d, []);
    assert x + [] == x;
    assert [] + x == x;
  }

  /** Round trip: splitting well-formed tokens joined by the delimiter gives
      the same tokens back. */
  lemma {:induction false} SplitJoin(ts: seq<string>, d: char)
    requires WellFormedTokens(ts, d)
    ensures Split(Join(ts, d), d) == ts
    decreases |ts|
  {
    if |ts| == 0 {
    } else if |ts| == 1 {
      SplitSingle(ts[0], d);
    } else {
      SplitLeadingToken(ts[0], Join(ts[1..], d), d);
      SplitJoin(ts[1..], d);
      assert [ts[0]] + ts[1..] == ts;
    }
  }

  // ---------------------------------------------------------------------
  // stoi
  // ---------------------------------------------------------------------

  /** The two exceptions `std::stoi` throws. */
  datatype StoiError = InvalidArgument | OutOfRange

  const INT_MIN: int := -0x8000_0000
  const INT_MAX: int := 0x7FFF_FFFF

  /** `isspace` in the C locale: space, and tab through carriage return. */
  predicate IsSpace(c: char) {
    c == ' ' || '\t' <= c <= '\r'
  }

  predicate IsDigit(c: char) {
    '0' <= c <= '9'
  }

  function SkipSpace(s: string): string
    decreases |s|
  {
    if s != [] && IsSpace(s[0]) then SkipSpace(s[1..]) else s
  }

  /** Length of the longest prefix of `s` made of decimal digits. */
  function DigitRun(s: string): (n: nat)
    ensures n <= |s|
    decreases |s|
  {
    if s != [] && IsDigit(s[0]) then 1 + DigitRun(s[1..]) else 0
  }

  /** The digit run is all digits, and is followed by a non-digit or the end. */
  lemma {:induction false} DigitRunSpec(s: string)
    ensures forall i :: 0 <= i < DigitRun(s) ==> IsDigit(s[i])
    ensures DigitRun(s) < |s| ==> !IsDigit(s[DigitRun(s)])
    decreases |s|
  {
    if s != [] && IsDigit(s[0]) {
      DigitRunSpec(s[1..]);
      forall i | 0 < i < DigitRun(s)
        ensures IsDigit(s[i])
      {
        assert s[i] == s[1..][i - 1];
      }
    }
  }

  /** Value of a digit string, most significant digit first. */
  function DecimalValue(ds: string): int
    decreases |ds|
  {
    if ds == [] then 0
    else 10 * DecimalValue(ds[..|ds| - 1]) + (ds[|ds| - 1] as int - '0' as int)
  }

  /** `std::stoi(s)` in base 10: leading white space is skipped, one optional
      sign is read, then the longest run of digits; characters after it are
      ignored. No digit is `invalid_argument`; a value outside `int` is
      `out_of_range`. */
  function Stoi(s: string): (r: Result<int, StoiError>)
    ensures r.Success? ==> INT_MIN <= r.value <= INT_MAX
  {
    var body := SkipSpace(s);
    var digits := Unsigned(body);
    var n := DigitRun(digits);
    if n == 0 then Failure(InvalidArgument)
    else
      var magnitude := DecimalValue(digits[..n]);
      var v := if body[0] == '-' then -magnitude else magnitude;
      if v < INT_MIN || INT_MAX < v then Failure(OutOfRange) else Success(v)
  }

  /** `s` without one leading sign character. */
  function Unsigned(s: string): string {
    if s != [] && (s[0] == '-' || s[0] == '+') then s[1..] else s
  }

  // ---------------------------------------------------------------------
  // decimal rendering, the partner of stoi
  // ---------------------------------------------------------------------

  function DigitChar(d: nat): (c: char)
    requires d < 10
    ensures IsDigit(c) && c as int - '0' as int == d
  {
    ('0' as int + d) as char
  }

  /** The shortest decimal rendering of `n`. */
  function ShowNat(n: nat): (s: string)
    ensures s != [] && forall i :: 0 <= i < |s| ==> IsDigit(s[i])
    decreases n
  {
    if n < 10 then [DigitChar(n)] else ShowNat(n / 10) + [DigitChar(n % 10)]
  }

  lemma {:induction false} DecimalValueShowNat(n: nat)
    ensures DecimalValue(ShowNat(n)) == n
    decreases n
  {
    var s := ShowNat(n);
    if n >= 10 {
      assert s[..|s| - 1] == ShowNat(n / 10);
      DecimalValueShowNat(n / 10);
    }
  }

  /** The digit run of a digit string followed by a non-digit ends at the
      boundary. */
  lemma {:induction false} DigitRunAppend(s: string, rest: string)
    requires forall i :: 0 <= i < |s| ==> IsDigit(s[i])
    requires rest == [] || !IsDigit(rest[0])
    ensures DigitRun(s + rest) == |s|
    decreases |s|
  {
    if s == [] {
      assert s + rest == rest;
    } else {
      assert (s + rest)[0] == s[0];
      assert (s + rest)[1..] == s[1..] + rest;
      DigitRunAppend(s[1..], rest);
    }
  }

  /** Characters after the digits do not change what `stoi` reads. */
  lemma StoiIgnoresSuffix(n: nat, rest: string)
    requires n <= INT_MAX
    requires rest == [] || !IsDigit(rest[0])
    ensures Stoi(ShowNat(n) + rest) == Success(n)
  {
    var s := ShowNat(n);
    var t := s + rest;
    assert IsDigit(t[0]) by { assert t[0] == s[0]; }
    assert SkipSpace(t) == t;
    assert Unsigned(t) == t;
    assert DigitRun(t) == |s| by { DigitRunAppend(s, rest); }
    assert DecimalValue(t[..|s|]) == n by {
      assert t[..|s|] == s;
      DecimalValueShowNat(n);
    }
  }

  /** `invalid_argument` is raised exactly when no digit follows the blanks
      and the optional sign. */
  lemma StoiInvalid(s: string)
    ensures Stoi(s) == Failure(InvalidArgument) <==> DigitRun(Unsigned(SkipSpace(s))) == 0
  {
  }

  /** The digits of a rendering are read in full and give back the number. */
  lemma ReadsRendering(n: nat)
    ensures DigitRun(ShowNat(n)) == |ShowNat(n)|
    ensures DecimalValue(ShowNat(n)[..DigitRun(ShowNat(n))]) == n
  {
    var s := ShowNat(n);
    DigitRunAppend(s, []);
    assert s + [] == s;
    assert s[..|s|] == s;
    DecimalValueShowNat(n);
  }

  /** A number above `INT_MAX` is `out_of_range`. */
  lemma StoiTooLarge(n: nat)
    requires n > INT_MAX
    ensures Stoi(ShowNat(n)) == Failure(OutOfRange)
  {
    var s := ShowNat(n);
    assert IsDigit(s[0]);
    assert SkipSpace(s) == s;
    assert Unsigned(s) == s;
    ReadsRendering(n);
  }

  /** Leading blanks are skipped and a minus sign negates: every `int` down
      to `INT_MIN` is read from its signed rendering. */
  lemma StoiNegative(n: nat)
    requires n <= -INT_MIN
    ensures Stoi(" -" + ShowNat(n)) == Success(-(n as int))
  {
    var s := ShowNat(n);
    var t := " -" + s;
    assert t[1..] == "-" + s;
    assert SkipSpace(t) == SkipSpace("-" + s) == "-" + s;
    assert ("-" + s)[1..] == s;
    assert Unsigned("-" + s) == s;
    ReadsRendering(n);
  }

  /** Round trip: `stoi` reads back every rendering of a non-negative `int`. */
  lemma StoiShowNat(n: nat)
    requires n <= INT_MAX
    ensures Stoi(ShowNat(n)) == Success(n)
  {
    StoiIgnoresSuffix(n, []);
    assert ShowNat(n) + [] == ShowNat(n);
  }
}
