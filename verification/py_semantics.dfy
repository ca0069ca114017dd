/** The few pieces of Python list, string and number semantics the model
    relies on, written out once. */
module PySemantics {
  import opened Wrappers

  /** `xs[-k:] if k > 0 else xs`: the last k elements, or all of them when
      there are fewer than k or when k is not positive. */
  function LastOrAll<T>(xs: seq<T>, k: int): (r: seq<T>)
    ensures k <= 0 ==> r == xs
    ensures k > 0 ==> |r| == if k < |xs| then k else |xs|
    ensures k > 0 ==> r == xs[|xs| - |r|..]
  {
    if k <= 0 || k >= |xs| then xs else xs[|xs| - k..]
  }

  /** `xs[-k:]` for a positive k: the last min(k, |xs|) elements. */
  function KeepLast<T>(xs: seq<T>, k: nat): (r: seq<T>)
    requires k > 0
    ensures |r| <= k && |r| <= |xs|
    ensures |xs| <= k ==> r == xs
    ensures |xs| > k ==> |r| == k
    ensures r == xs[|xs| - |r|..]
  {
    LastOrAll(xs, k)
  }

  /** Python slice bound clamping for a non-negative bound. */
  function Clamp(i: int, n: nat): (r: nat)
    ensures r <= n
    ensures 0 <= i <= n ==> r == i
  {
    if i < 0 then 0 else if i > n then n else i
  }

  /** `xs[i:j]` for non-negative i, j: out-of-range bounds are clamped. */
  function Slice<T>(xs: seq<T>, i: nat, j: nat): (r: seq<T>)
    ensures i <= j <= |xs| ==> r == xs[i..j]
    ensures |r| <= |xs|
  {
    var lo := Clamp(i, |xs|);
    var hi := Clamp(j, |xs|);
    if lo <= hi then xs[lo..hi] else []
  }

  /** `xs[i:]` for a non-negative i. */
  function From<T>(xs: seq<T>, i: nat): (r: seq<T>)
    ensures i <= |xs| ==> r == xs[i..]
    ensures i >= |xs| ==> r == []
  {
    xs[Clamp(i, |xs|)..]
  }

  /** `int(v)` on a float: truncation toward zero. */
  function Trunc(v: real): (r: int)
    ensures v >= 0.0 ==> r as real <= v < r as real + 1.0
    ensures v < 0.0 ==> r as real - 1.0 < v <= r as real
    ensures v >= 0.0 ==> r >= 0
    ensures v <= 0.0 ==> r <= 0
  {
    if v >= 0.0 then v.Floor else -((-v).Floor)
  }

  function LowerChar(c: char): char
  {
    if 'A' <= c <= 'Z' then (c as int - 'A' as int + 'a' as int) as char else c
  }

  /** `s.lower()` restricted to the ASCII letters. */
  function Lower(s: string): (r: string)
    ensures |r| == |s|
    ensures forall i :: 0 <= i < |s| ==> r[i] == LowerChar(s[i])
  {
    if s == [] then [] else [LowerChar(s[0])] + Lower(s[1..])
  }

  /** Python's built-in `round(v)` to an integer: nearest, ties to even. */
  function RoundHalfEven(v: real): (r: int)
    ensures v - 0.5 <= r as real <= v + 0.5
    ensures r as real - v == 0.5 || v - r as real == 0.5 ==> r % 2 == 0
  {
    var f := v.Floor;
    var frac := v - f as real;
    if frac < 0.5 then f
    else if frac > 0.5 then f + 1
    else if f % 2 == 0 then f else f + 1
  }

  /** `round(v, 2)`, taking the float as the exact real it denotes. */
  function Round2(v: real): (r: real)
    ensures v - 0.005 <= r <= v + 0.005
  {
    RoundHalfEven(v * 100.0) as real / 100.0
  }

  /** Rounding to two decimals never crosses a whole number: a value
      between two integers rounds to a value between them. */
  lemma Round2Within(v: real, lo: int, hi: int)
    requires lo as real <= v <= hi as real
    ensures lo as real <= Round2(v) <= hi as real
  {
    var n := RoundHalfEven(v * 100.0);
    assert (lo * 100) as real - 0.5 <= n as real <= (hi * 100) as real + 0.5;
    assert lo * 100 <= n <= hi * 100;
  }

  /** Python truthiness of a float, as used by `x or default`. */
  predicate TruthyReal(v: real) { v != 0.0 }

  function DigitChar(d: nat): char
    requires d < 10
  {
    ('0' as int + d) as char
  }

  /** `str(n)` for a non-negative integer. */
  function NatToString(n: nat): (r: string)
    ensures |r| >= 1
    ensures forall i :: 0 <= i < |r| ==> '0' <= r[i] <= '9'
  {
    if n < 10 then [DigitChar(n)] else NatToString(n / 10) + [DigitChar(n % 10)]
  }

  /** `str(n)` for any integer. */
  function IntToString(n: int): (r: string)
    ensures |r| >= 1
  {
    if n < 0 then "-" + NatToString(-n) else NatToString(n)
  }

  /** `sep.join(parts)` */
  function Join(parts: seq<string>, sep: char): (r: string)
    requires parts != []
    decreases |parts|
  {
    if |parts| == 1 then parts[0] else parts[0] + [sep] + Join(parts[1..], sep)
  }

  /** `s.split(sep)` for a one-character separator: at least one piece,
      none containing the separator, and joining them back gives `s`. */
  function Split(s: string, sep: char): (r: seq<string>)
    ensures r != []
    ensures forall i | 0 <= i < |r| :: sep !in r[i]
    ensures Join(r, sep) == s
    decreases |s|
  {
    if s == [] then [""]
    else
      var rest := Split(s[1..], sep);
      if s[0] == sep then
        var r := [""] + rest;
        assert r[1..] == rest;
        assert s == [sep] + s[1..];
        r
      else
        var r := [[s[0]] + rest[0]] + rest[1..];
        assert r[1..] == rest[1..];
        assert s == [s[0]] + s[1..];
        r
  }

  /** A piece without the separator, followed by the separator, splits off
      as the first piece. */
  lemma {:induction false} SplitPrefix(w: string, t: string, sep: char)
    requires sep !in w
    ensures Split(w + [sep] + t, sep) == [w] + Split(t, sep)
    decreases |w|
  {
    var s := w + [sep] + t;
    if w != [] {
      assert s[0] == w[0] && s[1..] == w[1..] + [sep] + t;
      SplitPrefix(w[1..], t, sep);
      var rest := [w[1..]] + Split(t, sep);
      assert rest[0] == w[1..] && rest[1..] == Split(t, sep);
      assert [w[0]] + w[1..] == w;
    } else {
      assert s == [sep] + t && s[1..] == t;
    }
  }

  /** A piece without the separator splits into itself. */
  lemma {:induction false} SplitWhole(w: string, sep: char)
    requires sep !in w
    ensures Split(w, sep) == [w]
    decreases |w|
  {
    if w != [] {
      SplitWhole(w[1..], sep);
      assert [w[0]] + w[1..] == w;
    }
  }

  /** Splitting a joined list of separator-free pieces gives the pieces
      back. */
  lemma {:induction false} SplitJoin(parts: seq<string>, sep: char)
    requires parts != []
    requires forall i | 0 <= i < |parts| :: sep !in parts[i]
    ensures Split(Join(parts, sep), sep) == parts
    decreases |parts|
  {
    if |parts| == 1 {
      SplitWhole(parts[0], sep);
    } else {
      SplitJoin(parts[1..], sep);
      SplitPrefix(parts[0], Join(parts[1..], sep), sep);
      assert [parts[0]] + parts[1..] == parts;
    }
  }

  predicate AllDigits(s: string)
  {
    forall i | 0 <= i < |s| :: '0' <= s[i] <= '9'
  }

  /** The number a run of decimal digits denotes. */
  function DigitsValue(s: string): nat
    requires AllDigits(s)
    decreases |s|
  {
    if s == [] then 0 else DigitsValue(s[..|s| - 1]) * 10 + (s[|s| - 1] as int - '0' as int)
  }

  /** Reading back the digits `str(n)` writes gives n. */
  lemma {:induction false} NatToStringValue(n: nat)
    ensures AllDigits(NatToString(n)) && DigitsValue(NatToString(n)) == n
    decreases n
  {
    if n >= 10 {
      NatToStringValue(n / 10);
      var s := NatToString(n);
      assert s[..|s| - 1] == NatToString(n / 10);
    }
  }

  /** `int(token)` for a token without surrounding whitespace, on ASCII
      decimal digits: an optional sign followed by digits, otherwise
      ValueError (None). */
  function ParseInt(s: string): (r: Option<int>)
    ensures r.Some? ==> s != [] && (AllDigits(s) || AllDigits(s[1..]))
  {
    if |s| >= 2 && s[0] == '-' && AllDigits(s[1..]) then Some(0 - DigitsValue(s[1..]) as int)
    else if |s| >= 2 && s[0] == '+' && AllDigits(s[1..]) then Some(DigitsValue(s[1..]))
    else if s != [] && AllDigits(s) then Some(DigitsValue(s))
    else None
  }

  /** `str(n)` holds no whitespace: a sign and digits only. */
  lemma IntToStringNoSpace(n: int)
    ensures NoSpace(IntToString(n))
  {
    var r := IntToString(n);
    if n < 0 {
      assert r == "-" + NatToString(-n);
      assert forall i | 1 <= i < |r| :: r[i] == NatToString(-n)[i - 1];
    }
  }

  /** `int(str(n)) == n` */
  lemma ParseIntToString(n: int)
    ensures ParseInt(IntToString(n)) == Some(n)
  {
    var s := IntToString(n);
    if n < 0 {
      var digits := NatToString(-n);
      assert s == "-" + digits;
      NatToStringValue(-n);
      ParseNegative(digits);
    } else {
      var digits := NatToString(n);
      assert s == digits;
      NatToStringValue(n);
      ParseUnsigned(digits);
    }
  }

  lemma ParseNegative(digits: string)
    requires |digits| >= 1 && AllDigits(digits)
    ensures ParseInt("-" + digits) == Some(0 - DigitsValue(digits) as int)
  {
    assert ("-" + digits)[1..] == digits;
  }

  lemma ParseUnsigned(digits: string)
    requires |digits| >= 1 && AllDigits(digits)
    ensures ParseInt(digits) == Some(DigitsValue(digits))
  {
    assert digits[0] != '-' && digits[0] != '+';
  }

  /** The characters `str.split()` treats as separators, those for which
      `str.isspace()` holds: the ASCII controls \t to \r, the separators
      \x1c to \x1f, the space, NEL, NBSP and the Unicode spaces and line
      and paragraph separators. */
  predicate IsSpace(c: char)
  {
    if c <= ' ' then c == ' ' || 9 as char <= c <= 13 as char || 28 as char <= c
    else 0x85 as char <= c && IsWideSpace(c)
  }

  /** The whitespace characters beyond ASCII. */
  predicate IsWideSpace(c: char)
  {
    || c == 0x85 as char || c == 0xA0 as char || c == 0x1680 as char
    || 0x2000 as char <= c <= 0x200A as char
    || c == 0x2028 as char || c == 0x2029 as char || c == 0x202F as char
    || c == 0x205F as char || c == 0x3000 as char
  }

  predicate NoSpace(s: string)
  {
    forall i | 0 <= i < |s| :: !IsSpace(s[i])
  }

  /** The longest prefix free of whitespace. */
  function TakeWord(s: string): (w: string)
    ensures w <= s && NoSpace(w)
    ensures |w| < |s| ==> IsSpace(s[|w|])
    decreases |s|
  {
    if s == [] || IsSpace(s[0]) then [] else [s[0]] + TakeWord(s[1..])
  }

  /** `s.split()` with no argument: the maximal runs of non-whitespace,
      with leading, trailing and repeated whitespace ignored. */
  function Words(s: string): (r: seq<string>)
    ensures forall i | 0 <= i < |r| :: r[i] != [] && NoSpace(r[i])
    decreases |s|
  {
    if s == [] then []
    else if IsSpace(s[0]) then Words(s[1..])
    else
      var w := TakeWord(s);
      [w] + Words(s[|w|..])
  }

  /** `str.split()` breaks at a no-break space and at an ideographic
      space as it does at a blank. */
  lemma WordsSplitAtUnicodeSpace()
    ensures Words("7" + [0xA0 as char] + "0.5") == ["7", "0.5"]
    ensures Words("7" + [0x3000 as char] + "0.5") == ["7", "0.5"]
  {
    WordsJoin(["7", "0.5"]);
    var a := "7" + [0xA0 as char] + "0.5";
    assert a == [a[0]] + a[1..] && a[1..] == [0xA0 as char] + "0.5";
    assert TakeWord(a) == "7" by { assert TakeWord(a[1..]) == []; }
    assert a[1..][1..] == "0.5";
    var b := "7" + [0x3000 as char] + "0.5";
    assert TakeWord(b) == "7" by { assert TakeWord(b[1..]) == []; }
    assert b[1..][1..] == "0.5";
  }

  /** A word followed by whitespace or the end is taken whole. */
  lemma {:induction false} TakeWordPrefix(w: string, t: string)
    requires NoSpace(w)
    requires t == [] || IsSpace(t[0])
    ensures TakeWord(w + t) == w
    decreases |w|
  {
    if w != [] {
      TakeWordPrefix(w[1..], t);
      assert (w + t)[1..] == w[1..] + t;
    } else {
      assert w + t == t;
    }
  }

  /** A word, a space, then the rest: the word is the first piece. */
  lemma WordsCons(w: string, t: string)
    requires w != [] && NoSpace(w)
    ensures Words(w + " " + t) == [w] + Words(t)
    ensures Words(w) == [w]
  {
    TakeWordPrefix(w, " " + t);
    assert w + " " + t == w + (" " + t);
    assert (w + " " + t)[|w|..] == " " + t;
    assert (" " + t)[1..] == t;
    TakeWordPrefix(w, []);
    assert w + [] == w;
    assert w[|w|..] == [];
  }

  /** Splitting space-joined words on whitespace gives the words back. */
  lemma {:induction false} WordsJoin(pieces: seq<string>)
    requires pieces != []
    requires forall i | 0 <= i < |pieces| :: pieces[i] != [] && NoSpace(pieces[i])
    ensures Words(Join(pieces, ' ')) == pieces
    decreases |pieces|
  {
    WordsCons(pieces[0], if |pieces| == 1 then "" else Join(pieces[1..], ' '));
    if |pieces| > 1 {
      WordsJoin(pieces[1..]);
      assert [pieces[0]] + pieces[1..] == pieces;
    }
  }

  /** Left-pads with zeros to width n. */
  function ZeroPad(s: string, n: nat): (r: string)
    ensures |r| >= n && |r| >= |s|
    ensures AllDigits(s) ==> AllDigits(r)
    decreases n - |s|
  {
    if |s| >= n then s else ZeroPad("0" + s, n)
  }

  /** `f"{v:.6f}"`, taking the float as the exact real it denotes: sign,
      integer part, a point and six decimals, rounded half to even. */
  function Fixed6(v: real): (r: string)
    ensures r != [] && NoSpace(r)
  {
    var k := RoundHalfEven(v * 1000000.0);
    var m := if k < 0 then -k else k;
    var intPart := NatToString(m / 1000000);
    var frac := ZeroPad(NatToString(m % 1000000), 6);
    var r := (if v < 0.0 then "-" else "") + intPart + "." + frac;
    assert forall i | 0 <= i < |r| :: r[i] == '-' || r[i] == '.' || '0' <= r[i] <= '9';
    r
  }
}
