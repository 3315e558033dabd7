/** String helpers shared by the lockfile parser, the URL builders and the
    request paths: decimal rendering and parsing of unsigned integers
    (Rust's `Display` and `FromStr` for `u32`/`u64`), splitting on one
    character, single-character replacement and ASCII lower-casing. */
module Text {

  predicate IsDigit(c: char) { '0' <= c <= '9' }

  predicate AllDigits(s: string) { forall i :: 0 <= i < |s| ==> IsDigit(s[i]) }

  function DigitChar(d: nat): (c: char)
    requires d < 10
    ensures IsDigit(c) && c as int - '0' as int == d
  {
    ('0' as int + d) as char
  }

  function DigitValue(c: char): nat
    requires IsDigit(c)
  {
    c as int - '0' as int
  }

  /** The value of a string of decimal digits, most significant first. */
  function DigitsValue(s: string): nat
    requires AllDigits(s)
  {
    if s == [] then 0 else DigitsValue(s[..|s| - 1]) * 10 + DigitValue(s[|s| - 1])
  }

  /** A digit string without superfluous leading zeros, as `Display` prints it. */
  predicate Canonical(s: string)
  {
    |s| >= 1 && AllDigits(s) && (|s| > 1 ==> s[0] != '0')
  }

  /** `n` printed in decimal, as Rust's `Display` and `Debug` print an unsigned integer. */
  function DecimalString(n: nat): (s: string)
    ensures Canonical(s)
    ensures ':' !in s
    decreases n
  {
    if n < 10 then [DigitChar(n)] else DecimalString(n / 10) + [DigitChar(n % 10)]
  }

  lemma {:induction false} DigitsValueSnoc(s: string, c: char)
    requires AllDigits(s) && IsDigit(c)
    ensures AllDigits(s + [c]) && DigitsValue(s + [c]) == DigitsValue(s) * 10 + DigitValue(c)
  {
    assert (s + [c])[..|s|] == s;
  }

  /** Reading back what `DecimalString` prints gives the number again. */
  lemma {:induction false} DecimalStringValue(n: nat)
    ensures DigitsValue(DecimalString(n)) == n
    decreases n
  {
    if n >= 10 {
      DecimalStringValue(n / 10);
      DigitsValueSnoc(DecimalString(n / 10), DigitChar(n % 10));
    }
  }

  lemma {:induction false} DigitsValueAtLeastFirst(s: string)
    requires |s| >= 1 && AllDigits(s)
    ensures DigitsValue(s) >= DigitValue(s[0])
  {
    if |s| > 1 {
      DigitsValueAtLeastFirst(s[..|s| - 1]);
    }
  }

  /** The other direction: a canonical digit string is what `DecimalString`
      prints for its value. */
  lemma {:induction false} CanonicalIsDecimalString(s: string)
    requires Canonical(s)
    ensures DecimalString(DigitsValue(s)) == s
    decreases |s|
  {
    var n := DigitsValue(s);
    if |s| == 1 {
      assert s[..0] == [] && DigitsValue(s[..0]) == 0;
      assert n == DigitValue(s[0]);
      assert s == [DigitChar(n)];
    } else {
      var p := s[..|s| - 1];
      assert p[0] == s[0];
      DigitsValueAtLeastFirst(p);
      assert n >= 10;
      assert n / 10 == DigitsValue(p) && n % 10 == DigitValue(s[|s| - 1]);
      CanonicalIsDecimalString(p);
      assert s == p + [s[|s| - 1]];
    }
  }

  /** A leading zero does not change the value of a digit string. */
  lemma {:induction false} DigitsValueLeadingZero(s: string)
    requires AllDigits(s)
    ensures AllDigits("0" + s) && DigitsValue("0" + s) == DigitsValue(s)
    decreases |s|
  {
    if s == [] {
      assert ("0" + s)[..0] == [];
    } else {
      var p := s[..|s| - 1];
      DigitsValueLeadingZero(p);
      assert ("0" + s)[..|s|] == "0" + p;
    }
  }

  /** Distinct numbers print differently. */
  lemma DecimalStringInjective(m: nat, n: nat)
    requires DecimalString(m) == DecimalString(n)
    ensures m == n
  {
    DecimalStringValue(m);
    DecimalStringValue(n);
  }

  /** Rust's `Vec<u64>` `Debug` form, `[1, 2, 3]`. */
  function DebugList(ns: seq<nat>): (s: string)
    ensures |s| >= 2 && s[0] == '[' && s[|s| - 1] == ']'
  {
    "[" + DebugItems(ns) + "]"
  }

  function DebugItems(ns: seq<nat>): string
  {
    if ns == [] then ""
    else if |ns| == 1 then DecimalString(ns[0])
    else DecimalString(ns[0]) + ", " + DebugItems(ns[1..])
  }

  /** The length of the run of digits `u` starts with. */
  function LeadingDigits(u: string): (k: nat)
    ensures k <= |u|
  {
    if u != [] && IsDigit(u[0]) then 1 + LeadingDigits(u[1..]) else 0
  }

  lemma {:induction false} LeadingDigitsOf(x: string, s: string)
    requires AllDigits(x)
    requires s == [] || !IsDigit(s[0])
    ensures LeadingDigits(x + s) == |x|
    decreases |x|
  {
    if x == [] {
      assert x + s == s;
    } else {
      assert (x + s)[1..] == x[1..] + s;
      LeadingDigitsOf(x[1..], s);
    }
  }

  /** A digit string followed by text that does not start with a digit
      comes apart in one way only. */
  lemma DigitsPrefixUnique(x: string, s: string, y: string, t: string)
    requires AllDigits(x) && AllDigits(y)
    requires s == [] || !IsDigit(s[0])
    requires t == [] || !IsDigit(t[0])
    requires x + s == y + t
    ensures x == y && s == t
  {
    LeadingDigitsOf(x, s);
    LeadingDigitsOf(y, t);
    assert x == (x + s)[..|x|] && y == (y + t)[..|y|];
    assert s == (x + s)[|x|..] && t == (y + t)[|y|..];
  }

  /** The first number of a `Debug` list, then the rest of the list. */
  lemma DebugItemsFirst(ns: seq<nat>)
    requires ns != []
    ensures DebugItems(ns) == DecimalString(ns[0]) + (if |ns| == 1 then "" else ", " + DebugItems(ns[1..]))
  {
  }

  /** Different id lists print differently. */
  lemma {:induction false} DebugItemsInjective(a: seq<nat>, b: seq<nat>)
    requires DebugItems(a) == DebugItems(b)
    ensures a == b
    decreases |a|
  {
    if a == [] || b == [] {
      if a != [] { DebugItemsFirst(a); }
      if b != [] { DebugItemsFirst(b); }
    } else {
      var ra := if |a| == 1 then "" else ", " + DebugItems(a[1..]);
      var rb := if |b| == 1 then "" else ", " + DebugItems(b[1..]);
      DebugItemsFirst(a);
      DebugItemsFirst(b);
      DigitsPrefixUnique(DecimalString(a[0]), ra, DecimalString(b[0]), rb);
      DecimalStringInjective(a[0], b[0]);
      if |a| > 1 && |b| > 1 {
        assert DebugItems(a[1..]) == ra[2..] && DebugItems(b[1..]) == rb[2..];
        DebugItemsInjective(a[1..], b[1..]);
        assert a == [a[0]] + a[1..] && b == [b[0]] + b[1..];
      }
    }
  }

  /** The `Debug` form of a list tells the list: different lists print differently. */
  lemma DebugListInjective(a: seq<nat>, b: seq<nat>)
    requires DebugList(a) == DebugList(b)
    ensures a == b
  {
    assert DebugItems(a) == DebugList(a)[1..|DebugList(a)| - 1];
    assert DebugItems(b) == DebugList(b)[1..|DebugList(b)| - 1];
    DebugItemsInjective(a, b);
  }

  /** The pieces of `sep`-separated text, as Rust's `str::split(sep)`
      yields them: never empty, none holds `sep`, and joining them
      back with `sep` restores the text. */
  function Split(s: string, sep: char): (pieces: seq<string>)
    ensures |pieces| >= 1
    ensures forall i :: 0 <= i < |pieces| ==> sep !in pieces[i]
    ensures Join(pieces, sep) == s
    decreases |s|
  {
    if s == [] then [""]
    else
      var rest := Split(s[1..], sep);
      if s[0] == sep then
        assert s == [sep] + s[1..];
        [""] + rest
      else
        var r := [[s[0]] + rest[0]] + rest[1..];
        assert r[1..] == rest[1..];
        assert s == [s[0]] + s[1..];
        r
  }

  /** `pieces` joined with `sep` between neighbours. */
  function Join(pieces: seq<string>, sep: char): string
  {
    if |pieces| == 0 then ""
    else if |pieces| == 1 then pieces[0]
    else pieces[0] + [sep] + Join(pieces[1..], sep)
  }

  lemma {:induction false} SplitWithoutSeparator(s: string, sep: char)
    requires sep !in s
    ensures Split(s, sep) == [s]
    decreases |s|
  {
    if s != [] {
      SplitWithoutSeparator(s[1..], sep);
      assert s == [s[0]] + s[1..];
    }
  }

  /** Splitting at one separator splits the two sides independently. */
  lemma {:induction false} SplitAppend(a: string, sep: char, b: string)
    ensures Split(a + [sep] + b, sep) == Split(a, sep) + Split(b, sep)
    decreases |a|
  {
    var s := a + [sep] + b;
    if a == [] {
      assert s[1..] == b;
    } else {
      assert s[1..] == a[1..] + [sep] + b;
      SplitAppend(a[1..], sep, b);
    }
  }

  /** Split undoes Join when no piece holds the separator. */
  lemma {:induction false} SplitJoin(pieces: seq<string>, sep: char)
    requires |pieces| >= 1
    requires forall i :: 0 <= i < |pieces| ==> sep !in pieces[i]
    ensures Split(Join(pieces, sep), sep) == pieces
    decreases |pieces|
  {
    SplitWithoutSeparator(pieces[0], sep);
    if |pieces| > 1 {
      SplitJoin(pieces[1..], sep);
      SplitAppend(pieces[0], sep, Join(pieces[1..], sep));
      assert pieces == [pieces[0]] + pieces[1..];
    }
  }

  /** Every `from` in `s` replaced by `to`, as Rust's `str::replace` with a
      one-character pattern and a one-character replacement. */
  function ReplaceChar(s: string, from: char, to: char): (r: string)
    ensures |r| == |s|
    ensures forall i :: 0 <= i < |s| ==> r[i] == (if s[i] == from then to else s[i])
    ensures from != to ==> from !in r
  {
    seq(|s|, i requires 0 <= i < |s| => if s[i] == from then to else s[i])
  }

  lemma ReplaceCharAppend(a: string, b: string, from: char, to: char)
    ensures ReplaceChar(a + b, from, to) == ReplaceChar(a, from, to) + ReplaceChar(b, from, to)
  {
  }

  function LowerChar(c: char): char
  {
    if 'A' <= c <= 'Z' then (c as int + 32) as char else c
  }

  predicate NoUpperAscii(s: string) { forall i :: 0 <= i < |s| ==> !('A' <= s[i] <= 'Z') }

  /** `s` with every ASCII capital letter lowered. */
  function ToLowerAscii(s: string): (r: string)
    ensures |r| == |s|
    ensures forall i :: 0 <= i < |s| ==> r[i] == LowerChar(s[i])
    ensures NoUpperAscii(r)
  {
    seq(|s|, i requires 0 <= i < |s| => LowerChar(s[i]))
  }

  /** Lowering twice is lowering once. */
  lemma ToLowerAsciiIdempotent(s: string)
    ensures ToLowerAscii(ToLowerAscii(s)) == ToLowerAscii(s)
  {
    var once := ToLowerAscii(s);
    var twice := ToLowerAscii(once);
    assert forall i :: 0 <= i < |s| ==> twice[i] == once[i];
  }
}
