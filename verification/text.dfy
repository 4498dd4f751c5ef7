/** Decimal numerals and newline-separated text, as the pipeline prints and reads them. */
module Text {

  datatype Option<+T> = None | Some(value: T)

  predicate IsDigit(c: char) {
    '0' <= c <= '9'
  }

  predicate AllDigits(s: string) {
    forall i :: 0 <= i < |s| ==> IsDigit(s[i])
  }

  function Digit(d: nat): (c: char)
    requires d < 10
    ensures IsDigit(c) && c as int == '0' as int + d
  {
    ('0' as int + d) as char
  }

  /** The numeral Python's `str` prints for a non-negative integer. */
  function Dec(n: nat): (s: string)
    ensures 0 < |s| && AllDigits(s)
  {
    if n < 10 then [Digit(n)] else Dec(n / 10) + [Digit(n % 10)]
  }

  /** The number Python's `int` reads from a run of digits. */
  function Undec(s: string): nat
    requires AllDigits(s)
  {
    if s == [] then 0 else 10 * Undec(s[..|s| - 1]) + (s[|s| - 1] as int - '0' as int)
  }

  lemma {:induction false} UndecDec(n: nat)
    ensures Undec(Dec(n)) == n
  {
    if n < 10 {
      assert Dec(n)[..0] == [];
    } else {
      UndecDec(n / 10);
      var s := Dec(n);
      assert s[..|s| - 1] == Dec(n / 10);
    }
  }

  lemma {:induction false} DecInjective(m: nat, n: nat)
    requires Dec(m) == Dec(n)
    ensures m == n
  {
    UndecDec(m);
    UndecDec(n);
  }

  predicate EndsWith(s: string, suffix: string) {
    |suffix| <= |s| && s[|s| - |suffix|..] == suffix
  }

  predicate StartsWith(s: string, prefix: string) {
    |prefix| <= |s| && s[..|prefix|] == prefix
  }

  lemma AppendedEnds(s: string, suffix: string)
    ensures EndsWith(s + suffix, suffix) && (s + suffix)[..|s|] == s
  {
  }

  // -------------------------------------------------------------------- lines

  predicate OneLine(s: string) {
    '\n' !in s
  }

  predicate AllOneLine(lines: seq<string>) {
    forall i :: 0 <= i < |lines| ==> OneLine(lines[i])
  }

  /** Every line followed by a newline. */
  function Unlines(lines: seq<string>): string {
    if lines == [] then "" else lines[0] + "\n" + Unlines(lines[1..])
  }

  /** The text up to the first newline (or all of it). */
  function FirstLine(s: string): string {
    if s == "" || s[0] == '\n' then "" else [s[0]] + FirstLine(s[1..])
  }

  lemma {:induction false} FirstLineOf(line: string, rest: string)
    requires OneLine(line)
    ensures FirstLine(line + "\n" + rest) == line
  {
    if line == "" {
      assert line + "\n" + rest == "\n" + rest;
    } else {
      assert OneLine(line[1..]) by {
        forall c | c in line[1..] ensures c in line { }
      }
      FirstLineOf(line[1..], rest);
      assert (line + "\n" + rest)[1..] == line[1..] + "\n" + rest;
    }
  }

  lemma FirstLineBound(s: string)
    ensures |FirstLine(s)| <= |s|
  {
  }

  /** Splits a text whose every line is newline-terminated; None when the last line is not. */
  function Lines(s: string): Option<seq<string>>
    decreases |s|
  {
    FirstLineBound(s);
    var head := FirstLine(s);
    if s == "" then Some([])
    else if |head| == |s| then None
    else match Lines(s[|head| + 1..])
         case None => None
         case Some(rest) => Some([head] + rest)
  }

  lemma {:induction false} LinesOfUnlines(lines: seq<string>)
    requires AllOneLine(lines)
    ensures Lines(Unlines(lines)) == Some(lines)
  {
    if lines != [] {
      var rest := Unlines(lines[1..]);
      FirstLineOf(lines[0], rest);
      LinesOfUnlines(lines[1..]);
      assert Unlines(lines)[|lines[0]| + 1..] == rest;
      assert [lines[0]] + lines[1..] == lines;
    }
  }

  // --------------------------------------------------------------------- text order

  function Base256(s: string): nat {
    if s == "" then 0 else Base256(s[..|s| - 1]) * 256 + s[|s| - 1] as nat
  }

  /** Python's `<=` on strings. */
  predicate TextLeq(a: string, b: string) {
    if a == "" then true
    else if b == "" then false
    else if a[0] != b[0] then a[0] < b[0]
    else TextLeq(a[1..], b[1..])
  }

  predicate Bytes(s: string) {
    forall i :: 0 <= i < |s| ==> s[i] as nat < 256
  }

  function Power256(n: nat): nat {
    if n == 0 then 1 else 256 * Power256(n - 1)
  }

  lemma {:induction false} Base256Below(s: string)
    requires Bytes(s)
    ensures Base256(s) < Power256(|s|)
  {
    if s != "" {
      Base256Below(s[..|s| - 1]);
    }
  }

  lemma {:induction false} Base256Front(s: string)
    requires s != ""
    ensures Base256(s) == s[0] as nat * Power256(|s| - 1) + Base256(s[1..])
  {
    if |s| == 1 {
      assert s[..0] == "" && s[1..] == "";
    } else {
      var init := s[..|s| - 1];
      Base256Front(init);
      assert s[1..][..|s| - 2] == init[1..];
      assert Base256(s[1..]) == Base256(init[1..]) * 256 + s[|s| - 1] as nat;
      Shift(s[0] as nat, Power256(|s| - 2));
    }
  }

  lemma Shift(c: nat, p: nat)
    ensures c * p * 256 == c * (256 * p)
  {
  }

  /** On texts of one length, comparing numbers is comparing text. */
  lemma {:induction false} NumbersOrderText(a: string, b: string)
    requires |a| == |b| && Bytes(a) && Bytes(b)
    ensures Base256(a) <= Base256(b) <==> TextLeq(a, b)
  {
    if a != "" {
      NumbersOrderText(a[1..], b[1..]);
      Base256Front(a);
      Base256Front(b);
      Base256Below(a[1..]);
      Base256Below(b[1..]);
      FirstDecides(a[0] as nat, b[0] as nat, Power256(|a| - 1), Base256(a[1..]), Base256(b[1..]));
    }
  }

  lemma FirstDecides(c: nat, d: nat, p: nat, x: nat, y: nat)
    requires x < p && y < p
    ensures c < d ==> c * p + x < d * p + y
    ensures d < c ==> d * p + y < c * p + x
  {
    if c < d {
      assert (c + 1) * p <= d * p;
    } else if d < c {
      assert (d + 1) * p <= c * p;
    }
  }

  /** A zero at the end decides nothing against a text one longer. */
  lemma {:induction false} PadLeft(a: string, b: string)
    requires |b| == |a| + 1
    ensures TextLeq(a + [0 as char], b) <==> TextLeq(a, b)
  {
    if a == "" {
      assert (a + [0 as char])[1..] == "";
    } else {
      PadLeft(a[1..], b[1..]);
      assert (a + [0 as char])[1..] == a[1..] + [0 as char];
    }
  }

  lemma {:induction false} PadRight(a: string, b: string)
    requires |a| == |b| + 1 && a[|a| - 1] != 0 as char
    ensures TextLeq(a, b + [0 as char]) <==> TextLeq(a, b)
  {
    if b == "" {
    } else {
      PadRight(a[1..], b[1..]);
      assert (b + [0 as char])[1..] == b[1..] + [0 as char];
    }
  }
}
