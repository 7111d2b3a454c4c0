/** Text helpers: Rust's `{}` for unsigned integers, and line counting. */
module Text {

  predicate IsDigit(c: char) {
    '0' <= c <= '9'
  }

  function DigitChar(d: nat): (c: char)
    requires d < 10
    ensures IsDigit(c) && c as int - '0' as int == d
  {
    ('0' as int + d) as char
  }

  /** The decimal text `{}` prints for a `usize`: no sign, no leading zero. */
  function NatText(n: nat): (s: string)
    ensures |s| >= 1
    ensures forall k :: 0 <= k < |s| ==> IsDigit(s[k])
    ensures s[0] == '0' ==> n == 0
    decreases n
  {
    if n < 10 then [DigitChar(n)] else NatText(n / 10) + [DigitChar(n % 10)]
  }

  /** The value of a string of decimal digits, read most significant first. */
  function DigitsValue(s: string): nat
    requires forall k :: 0 <= k < |s| ==> IsDigit(s[k])
  {
    if s == [] then 0
    else
      assert IsDigit(s[|s| - 1]);
      DigitsValue(s[..|s| - 1]) * 10 + (s[|s| - 1] as int - '0' as int)
  }

  /** Reading back the printed text of `n` gives `n`: the decimal text is unambiguous. */
  lemma {:induction false} NatTextRoundTrip(n: nat)
    ensures DigitsValue(NatText(n)) == n
    decreases n
  {
    if n >= 10 {
      var s := NatText(n / 10) + [DigitChar(n % 10)];
      assert s[..|s| - 1] == NatText(n / 10);
      NatTextRoundTrip(n / 10);
    }
  }

  /** The number of line terminators in `s`, i.e. the number of lines `writeln!` produced. */
  function LineCount(s: string): nat {
    if s == [] then 0 else LineCount(s[..|s| - 1]) + (if s[|s| - 1] == '\n' then 1 else 0)
  }

  predicate SingleLine(s: string) {
    '\n' !in s
  }

  /** Line terminators add up over concatenation. */
  lemma {:induction false} LineCountConcat(a: string, b: string)
    ensures LineCount(a + b) == LineCount(a) + LineCount(b)
    decreases |b|
  {
    if b == [] {
      assert a + b == a;
    } else {
      var init := b[..|b| - 1];
      assert (a + b)[..|a + b| - 1] == a + init;
      LineCountConcat(a, init);
    }
  }

  /** A string is a single line exactly when it has no terminator. */
  lemma {:induction false} SingleLineCount(s: string)
    ensures SingleLine(s) <==> LineCount(s) == 0
    decreases |s|
  {
    if s != [] {
      var init := s[..|s| - 1];
      SingleLineCount(init);
      assert s == init + [s[|s| - 1]];
    }
  }

  /** One terminator closes one line. */
  lemma TerminatedLine(s: string)
    requires SingleLine(s)
    ensures LineCount(s + "\n") == 1
  {
    SingleLineCount(s);
    LineCountConcat(s, "\n");
  }

  // Regrouping steps for strings built by appending.

  lemma EmptyLeft(s: string)
    ensures "" + s == s
  {
  }

  lemma EmptyRight(s: string)
    ensures s + "" == s
  {
  }

  lemma Assoc(a: string, b: string, c: string)
    ensures a + b + c == a + (b + c)
  {
  }

  lemma NatTextSingleLine(n: nat)
    ensures SingleLine(NatText(n))
  {
  }
}
