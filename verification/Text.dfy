/** String primitives shared by names, hosts and messages. */
module Text {

  predicate IsDigit(c: char) {
    '0' <= c <= '9'
  }

  function DigitChar(d: nat): char
    requires d < 10
  {
    "0123456789"[d]
  }

  function DigitValue(c: char): (d: nat)
    requires IsDigit(c)
    ensures d < 10
  {
    (c - '0') as int
  }

  /** Decimal rendering without leading zeros. */
  function Digits(n: nat): string {
    if n < 10 then [DigitChar(n)] else Digits(n / 10) + [DigitChar(n % 10)]
  }

  ghost predicate AllDigits(s: string) {
    forall c :: c in s ==> IsDigit(c)
  }

  function Value(s: string): nat
    requires forall c :: c in s ==> IsDigit(c)
  {
    if s == [] then 0 else 10 * Value(s[..|s| - 1]) + DigitValue(s[|s| - 1])
  }

  lemma AppendDigit(s: string, d: nat)
    requires d < 10 && AllDigits(s)
    ensures AllDigits(s + [DigitChar(d)]) && Value(s + [DigitChar(d)]) == 10 * Value(s) + d
  {
    assert (s + [DigitChar(d)])[..|s|] == s;
  }

  lemma {:induction false} DigitsRoundTrip(n: nat)
    ensures |Digits(n)| > 0 && AllDigits(Digits(n)) && Value(Digits(n)) == n
  {
    if n < 10 {
      AppendDigit([], n);
      assert [] + [DigitChar(n)] == [DigitChar(n)];
    } else {
      DigitsRoundTrip(n / 10);
      AppendDigit(Digits(n / 10), n % 10);
    }
  }

  /** The ten digits mean what they should. */
  lemma DigitsLiteral()
    ensures Value("1234567890") == 1_234_567_890 && Value("0") == 0
  {
    var s := "1234567890";
    assert s[..9] == "123456789" && s[..9][..8] == "12345678" && s[..9][..8][..7] == "1234567";
    assert Value("1") == 1 by {
      assert "1"[..0] == "";
    }
    assert Value("12") == 12 by {
      assert "12"[..1] == "1";
    }
    assert Value("123") == 123 by {
      assert "123"[..2] == "12";
    }
    assert Value("1234") == 1234 by {
      assert "1234"[..3] == "123";
    }
    assert Value("12345") == 12345 by {
      assert "12345"[..4] == "1234";
    }
    assert Value("123456") == 123456 by {
      assert "123456"[..5] == "12345";
    }
    assert Value("1234567") == 1234567 by {
      assert "1234567"[..6] == "123456";
    }
    assert Value("12345678") == 12345678 by {
      assert "12345678"[..7] == "1234567";
    }
    assert Value("123456789") == 123456789 by {
      assert "123456789"[..8] == "12345678";
    }
    assert "0"[..0] == "";
  }

  /** The text before the first occurrence of `c`, or all of it. */
  function UpTo(s: string, c: char): string {
    if s == [] || s[0] == c then [] else [s[0]] + UpTo(s[1..], c)
  }

  lemma {:induction false} UpToSplit(a: string, c: char, b: string)
    requires c !in a
    ensures UpTo(a + [c] + b, c) == a
    ensures UpTo(a, c) == a
  {
    var s := a + [c] + b;
    if a != [] {
      UpToSplit(a[1..], c, b);
      assert s[1..] == a[1..] + [c] + b;
    }
  }

  lemma {:induction false} UpToPrefix(s: string, c: char)
    ensures UpTo(s, c) <= s && c !in UpTo(s, c)
    ensures UpTo(s, c) == s || s[|UpTo(s, c)|] == c
  {
    if s != [] && s[0] != c {
      UpToPrefix(s[1..], c);
    }
  }

  predicate EndsWith(s: string, suffix: string) {
    |suffix| <= |s| && s[|s| - |suffix|..] == suffix
  }

  function LowerChar(c: char): char {
    if 'A' <= c <= 'Z' then c - 'A' + 'a' else c
  }

  /** ASCII lower-casing. */
  function Lower(s: string): (r: string)
    ensures |r| == |s| && forall i :: 0 <= i < |s| ==> r[i] == LowerChar(s[i])
  {
    seq(|s|, i requires 0 <= i < |s| => LowerChar(s[i]))
  }

  /** Lower-casing changes the 26 capital letters and nothing else. */
  lemma LowerExact(c: char, i: nat)
    ensures i < 26 ==> LowerChar("ABCDEFGHIJKLMNOPQRSTUVWXYZ"[i]) == "abcdefghijklmnopqrstuvwxyz"[i]
    ensures c !in "ABCDEFGHIJKLMNOPQRSTUVWXYZ" ==> LowerChar(c) == c
  {
    var capitals := "ABCDEFGHIJKLMNOPQRSTUVWXYZ";
    assert forall j :: 0 <= j < 26 ==> capitals[j] as int == 'A' as int + j;
    assert forall j :: 0 <= j < 26 ==> "abcdefghijklmnopqrstuvwxyz"[j] as int == 'a' as int + j;
    if 'A' <= c <= 'Z' {
      assert capitals[c as int - 'A' as int] == c;
    }
  }

  function TakeDigits(s: string): string {
    if s == [] || !IsDigit(s[0]) then [] else [s[0]] + TakeDigits(s[1..])
  }

  lemma {:induction false} TakeDigitsSplit(a: string, b: string)
    requires AllDigits(a) && (b == [] || !IsDigit(b[0]))
    ensures TakeDigits(a + b) == a
  {
    if a == [] {
      assert a + b == b;
    } else {
      TakeDigitsSplit(a[1..], b);
      assert (a + b)[1..] == a[1..] + b;
    }
  }
}
