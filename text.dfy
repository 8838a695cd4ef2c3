/** Text helpers shared by the capture side (C++ `std::to_string`) and the server side
    (JavaScript `Number`, `startsWith`, `endsWith`, `includes`, `split`, `toLowerCase` and the
    default string order of `Array.prototype.sort`). Strings are sequences of characters. */
module Text {

  predicate StartsWith(s: string, prefix: string) {
    |prefix| <= |s| && s[..|prefix|] == prefix
  }

  predicate EndsWith(s: string, suffix: string) {
    |suffix| <= |s| && s[|s| - |suffix|..] == suffix
  }

  /** JavaScript `s.includes(sub)`. */
  predicate Contains(s: string, sub: string)
    decreases |s|
  {
    StartsWith(s, sub) || (s != [] && Contains(s[1..], sub))
  }

  predicate IsDigit(c: char) {
    '0' <= c <= '9'
  }

  predicate IsDigits(s: string) {
    forall i | 0 <= i < |s| :: IsDigit(s[i])
  }

  function DigitChar(d: nat): (c: char)
    requires d < 10
    ensures IsDigit(c) && c as int - '0' as int == d
  {
    ['0', '1', '2', '3', '4', '5', '6', '7', '8', '9'][d]
  }

  /** Decimal rendering of a natural number, as `std::to_string` and JavaScript's
      `String(n)` produce it: no sign, no leading zero. */
  function Decimal(n: nat): (s: string)
    decreases n
  {
    if n < 10 then [DigitChar(n)] else Decimal(n / 10) + [DigitChar(n % 10)]
  }

  /** Value of a string of decimal digits, read most significant digit first. */
  function DigitsValue(s: string): nat
    requires IsDigits(s)
  {
    if s == [] then 0 else DigitsValue(s[..|s| - 1]) * 10 + (s[|s| - 1] as int - '0' as int)
  }

  lemma {:induction false} DecimalRoundTrip(n: nat)
    ensures Decimal(n) != [] && IsDigits(Decimal(n))
    ensures DigitsValue(Decimal(n)) == n
    ensures Decimal(n)[0] == '0' ==> n == 0
    decreases n
  {
    if n >= 10 {
      DecimalRoundTrip(n / 10);
      var s := Decimal(n);
      assert s[..|s| - 1] == Decimal(n / 10);
    }
  }

  /** A string of digits holds no other character. */
  lemma DigitsExclude(s: string, c: char)
    requires IsDigits(s) && !IsDigit(c)
    ensures c !in s
  {
  }

  lemma DecimalInjective(m: nat, n: nat)
    requires Decimal(m) == Decimal(n)
    ensures m == n
  {
    DecimalRoundTrip(m);
    DecimalRoundTrip(n);
  }

  /** ASCII lower-casing, the part of JavaScript's `toLowerCase` the model covers. */
  function ToLowerAscii(s: string): (r: string)
    ensures |r| == |s|
    ensures forall i | 0 <= i < |s| :: r[i] == (if 'A' <= s[i] <= 'Z' then (s[i] as int + 32) as char else s[i])
  {
    if s == [] then [] else
      var c := s[0];
      [if 'A' <= c <= 'Z' then (c as int + 32) as char else c] + ToLowerAscii(s[1..])
  }

  /** JavaScript `s.split(sep)` for a one-character separator: the empty string
      splits into one empty piece. */
  function Split(s: string, sep: char): (pieces: seq<string>)
    ensures |pieces| >= 1
    decreases |s|
  {
    if s == [] then [""]
    else if s[0] == sep then [""] + Split(s[1..], sep)
    else
      var rest := Split(s[1..], sep);
      [[s[0]] + rest[0]] + rest[1..]
  }

  /** JavaScript `pieces.join(sep)`. */
  function Join(pieces: seq<string>, sep: char): string
    requires |pieces| >= 1
  {
    if |pieces| == 1 then pieces[0] else pieces[0] + [sep] + Join(pieces[1..], sep)
  }

  /** Splitting loses nothing: joining the pieces back gives the input, and no piece holds
      the separator. */
  lemma {:induction false} SplitJoin(s: string, sep: char)
    ensures Join(Split(s, sep), sep) == s
    ensures forall k | 0 <= k < |Split(s, sep)| :: sep !in Split(s, sep)[k]
    decreases |s|
  {
    if s != [] {
      SplitJoin(s[1..], sep);
      if s[0] == sep {
        SplitJoinSep(s, sep);
      } else {
        SplitJoinOther(s, sep);
      }
    }
  }

  /** A separator in front starts a new, empty piece. */
  lemma SplitJoinSep(s: string, sep: char)
    requires s != [] && s[0] == sep
    requires Join(Split(s[1..], sep), sep) == s[1..]
    requires forall k | 0 <= k < |Split(s[1..], sep)| :: sep !in Split(s[1..], sep)[k]
    ensures Join(Split(s, sep), sep) == s
    ensures forall k | 0 <= k < |Split(s, sep)| :: sep !in Split(s, sep)[k]
  {
    var rest := Split(s[1..], sep);
    var pieces := Split(s, sep);
    assert pieces == [""] + rest;
    assert pieces[1..] == rest;
    assert s == [sep] + s[1..];
    forall k | 0 <= k < |pieces| ensures sep !in pieces[k] {
      if k > 0 { assert pieces[k] == rest[k - 1]; }
    }
  }

  /** Putting a character in front of the first piece puts it in front of the joined
      string. */
  lemma JoinPrepend(c: char, pieces: seq<string>, sep: char)
    requires |pieces| >= 1
    ensures Join([[c] + pieces[0]] + pieces[1..], sep) == [c] + Join(pieces, sep)
  {
    var q := [[c] + pieces[0]] + pieces[1..];
    assert q[0] == [c] + pieces[0];
    assert q[1..] == pieces[1..];
    if |pieces| > 1 {
      calc {
        Join(q, sep);
        q[0] + [sep] + Join(q[1..], sep);
        [c] + pieces[0] + [sep] + Join(pieces[1..], sep);
        [c] + (pieces[0] + [sep] + Join(pieces[1..], sep));
        [c] + Join(pieces, sep);
      }
    }
  }

  /** Any other character in front joins the first piece. */
  lemma SplitJoinOther(s: string, sep: char)
    requires s != [] && s[0] != sep
    requires Join(Split(s[1..], sep), sep) == s[1..]
    requires forall k | 0 <= k < |Split(s[1..], sep)| :: sep !in Split(s[1..], sep)[k]
    ensures Join(Split(s, sep), sep) == s
    ensures forall k | 0 <= k < |Split(s, sep)| :: sep !in Split(s, sep)[k]
  {
    var rest := Split(s[1..], sep);
    var pieces := Split(s, sep);
    assert pieces == [[s[0]] + rest[0]] + rest[1..];
    JoinPrepend(s[0], rest, sep);
    assert s == [s[0]] + s[1..];
    forall k | 0 <= k < |pieces| ensures sep !in pieces[k] {
      if k > 0 {
        assert pieces[k] == rest[k];
      } else {
        assert sep !in rest[0];
        assert pieces[0] == [s[0]] + rest[0];
      }
    }
  }

  /** A string free of the separator is a single piece. */
  lemma {:induction false} SplitNoSep(s: string, sep: char)
    requires sep !in s
    ensures Split(s, sep) == [s]
    decreases |s|
  {
    if s != [] {
      assert sep !in s[1..];
      SplitNoSep(s[1..], sep);
      assert [s[0]] + s[1..] == s;
    }
  }

  /** Splitting at the first separator: the part before it is the first piece. */
  lemma {:induction false} SplitAtSep(x: string, sep: char, y: string)
    requires sep !in x
    ensures Split(x + [sep] + y, sep) == [x] + Split(y, sep)
    decreases |x|
  {
    var s := x + [sep] + y;
    if x == [] {
      assert s[1..] == y;
    } else {
      assert s[0] == x[0];
      assert s[1..] == x[1..] + [sep] + y;
      SplitAtSep(x[1..], sep, y);
      var rest := Split(s[1..], sep);
      assert rest[0] == x[1..];
      assert [x[0]] + x[1..] == x;
    }
  }

  /** JavaScript `s.replace(c, r)` for a one-character pattern: only the first occurrence
      is replaced. */
  function ReplaceFirst(s: string, c: char, r: string): (t: string)
    ensures c !in s ==> t == s
    decreases |s|
  {
    if s == [] then []
    else if s[0] == c then r + s[1..]
    else [s[0]] + ReplaceFirst(s[1..], c, r)
  }

  /** The result of JavaScript's `Number(text)` for the texts the model covers: the
      empty string is 0, a string of decimal digits is its value, anything else is NaN. */
  datatype JsNumber = Finite(value: nat) | NaN

  function ToNumber(s: string): (n: JsNumber)
    ensures n.Finite? <==> IsDigits(s)
    ensures s == [] ==> n == Finite(0)
  {
    if IsDigits(s) then Finite(DigitsValue(s)) else NaN
  }

  /** Reading a rendered number back gives the number. */
  lemma ToNumberDecimal(n: nat)
    ensures ToNumber(Decimal(n)) == Finite(n)
  {
    DecimalRoundTrip(n);
  }

  /** JavaScript `a > b` on numbers: false as soon as either side is NaN. */
  predicate Greater(a: JsNumber, b: JsNumber) {
    a.Finite? && b.Finite? && a.value > b.value
  }

  /** JavaScript `a == b` on numbers: NaN equals nothing, itself included. */
  predicate SameNumber(a: JsNumber, b: JsNumber) {
    a.Finite? && b.Finite? && a.value == b.value
  }

  /** Lexicographic order on strings by character code: the order JavaScript's
      `Array.prototype.sort` uses when no comparator is given. */
  predicate LexLe(a: string, b: string)
    decreases |a|
  {
    a == [] || (b != [] && (a[0] < b[0] || (a[0] == b[0] && LexLe(a[1..], b[1..]))))
  }

  lemma {:induction false} LexLeTotal(a: string, b: string)
    ensures LexLe(a, b) || LexLe(b, a)
    decreases |a|
  {
    if a != [] && b != [] && a[0] == b[0] {
      LexLeTotal(a[1..], b[1..]);
    }
  }

  lemma {:induction false} LexLeTransitive(a: string, b: string, c: string)
    requires LexLe(a, b) && LexLe(b, c)
    ensures LexLe(a, c)
    decreases |a|
  {
    if a != [] && a[0] == b[0] && b[0] == c[0] {
      LexLeTransitive(a[1..], b[1..], c[1..]);
    }
  }

  lemma {:induction false} LexLeAntisymmetric(a: string, b: string)
    requires LexLe(a, b) && LexLe(b, a)
    ensures a == b
    decreases |a|
  {
    if a != [] {
      LexLeAntisymmetric(a[1..], b[1..]);
      assert a == [a[0]] + a[1..] && b == [b[0]] + b[1..];
    }
  }
}
