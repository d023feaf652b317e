/** Python's text operations that the billing and agreement code relies on:
    int(), zero-padded formatting, str.split, str.strip and `<` on strings. */
module Text {
  import opened Wrappers

  predicate IsDigit(c: char) {
    '0' <= c <= '9'
  }

  predicate IsSpace(c: char) {
    c == ' ' || '\t' <= c <= '\r' || '\U{1c}' <= c <= '\U{1f}'
  }

  predicate AllDigits(s: string) {
    forall i :: 0 <= i < |s| ==> IsDigit(s[i])
  }

  function DigitChar(d: nat): (c: char)
    requires d < 10
    ensures IsDigit(c) && c as int - '0' as int == d
  {
    '0' + d as char
  }

  // ---- str.strip and str.split ----

  function StripLeft(s: string): string {
    if s != [] && IsSpace(s[0]) then StripLeft(s[1..]) else s
  }

  function StripRight(s: string): string {
    if s != [] && IsSpace(s[|s| - 1]) then StripRight(s[..|s| - 1]) else s
  }

  function Strip(s: string): string {
    StripRight(StripLeft(s))
  }

  /** What str.strip leaves: the text without the spaces around it, and nothing of a text
      of spaces only. */
  lemma {:induction false} StripExactly(s: string) returns (i: nat, j: nat)
    ensures i <= j <= |s| && Strip(s) == s[i..j]
    ensures forall k :: 0 <= k < i || j <= k < |s| ==> IsSpace(s[k])
    ensures i < j ==> !IsSpace(s[i]) && !IsSpace(s[j - 1])
    ensures Strip(s) == "" <==> forall k :: 0 <= k < |s| ==> IsSpace(s[k])
  {
    hide IsSpace;
    i := LeftSpaces(s);
    var right := RightSpaces(s[i..]);
    j := i + right;
    assert s[i..][..right] == s[i..j];
    forall k | j <= k < |s| ensures IsSpace(s[k]) {
      assert s[k] == s[i..][k - i];
    }
  }

  lemma {:induction false} LeftSpaces(s: string) returns (i: nat)
    ensures i <= |s| && StripLeft(s) == s[i..]
    ensures (forall k :: 0 <= k < i ==> IsSpace(s[k])) && (i < |s| ==> !IsSpace(s[i]))
  {
    hide IsSpace;
    if s != [] && IsSpace(s[0]) {
      var rest := LeftSpaces(s[1..]);
      i := rest + 1;
      assert s[1..][rest..] == s[i..];
    } else {
      i := 0;
    }
  }

  lemma {:induction false} RightSpaces(s: string) returns (j: nat)
    ensures j <= |s| && StripRight(s) == s[..j]
    ensures (forall k :: j <= k < |s| ==> IsSpace(s[k])) && (j > 0 ==> !IsSpace(s[j - 1]))
  {
    hide IsSpace;
    var n := |s|;
    if s != [] && IsSpace(s[n - 1]) {
      j := RightSpaces(s[..n - 1]);
      assert s[..n - 1][..j] == s[..j];
    } else {
      j := n;
      assert s[..n] == s;
    }
  }

  /** The index of the first `sep`, or the length when there is none. */
  function Find(s: string, sep: char): (i: nat)
    ensures i <= |s| && (i < |s| ==> s[i] == sep)
    ensures forall j :: 0 <= j < i ==> s[j] != sep
  {
    if s == [] || s[0] == sep then 0 else 1 + Find(s[1..], sep)
  }

  /** The index after the last `sep`, or 0 when there is none. */
  function AfterLast(s: string, sep: char): (i: nat)
    ensures i <= |s| && (i > 0 ==> s[i - 1] == sep)
    ensures forall j :: i <= j < |s| ==> s[j] != sep
  {
    if s == [] then 0
    else if s[|s| - 1] == sep then |s|
    else AfterLast(s[..|s| - 1], sep)
  }

  function Split(s: string, sep: char): seq<string>
    decreases |s|
  {
    var i := Find(s, sep);
    if i == |s| then [s] else [s[..i]] + Split(s[i + 1..], sep)
  }

  // ---- int() ----

  /** Decimal digits, with a single underscore allowed between two of them. */
  function ParseDigits(s: string): Option<nat> {
    if s == [] || !IsDigit(s[|s| - 1]) then None
    else
      var d := s[|s| - 1] as int - '0' as int;
      if |s| == 1 then Some(d)
      else
        var rest := s[..|s| - 1];
        var front := if rest[|rest| - 1] == '_' then rest[..|rest| - 1] else rest;
        match ParseDigits(front)
        case None => None
        case Some(v) => Some(10 * v + d)
  }

  function ParseInt(s: string): Option<int> {
    var t := Strip(s);
    if t != [] && t[0] == '-' then
      match ParseDigits(t[1..])
      case None => None
      case Some(v) => Some((0 as int) - v)
    else
      match ParseDigits(if t != [] && t[0] == '+' then t[1..] else t)
      case None => None
      case Some(v) => Some(v)
  }

  // ---- f"{n:0wd}" ----

  function Digits(n: nat): (s: string)
    ensures s != [] && AllDigits(s)
  {
    if n < 10 then [DigitChar(n)] else Digits(n / 10) + [DigitChar(n % 10)]
  }

  function Zeros(k: nat): (s: string)
    ensures |s| == k && AllDigits(s)
  {
    seq(k, _ => '0')
  }

  function Pad(n: nat, width: nat): (s: string)
    ensures s != [] && AllDigits(s) && |s| >= width
  {
    var d := Digits(n);
    if |d| >= width then d else Zeros(width - |d|) + d
  }

  function Value(s: string): nat
    requires AllDigits(s)
  {
    if s == [] then 0 else 10 * Value(s[..|s| - 1]) + (s[|s| - 1] as int - '0' as int)
  }

  lemma {:induction false} ValueDigits(n: nat)
    ensures Value(Digits(n)) == n
  {
    if n >= 10 {
      ValueDigits(n / 10);
      assert Digits(n)[..|Digits(n)| - 1] == Digits(n / 10);
    }
  }

  lemma {:induction false} ValueZeros(k: nat, s: string)
    requires AllDigits(s)
    ensures Value(Zeros(k) + s) == Value(s)
  {
    if s != [] {
      ValueZeros(k, s[..|s| - 1]);
      assert (Zeros(k) + s)[..k + |s| - 1] == Zeros(k) + s[..|s| - 1];
    } else if k > 0 {
      ValueZeros(k - 1, s);
      assert (Zeros(k) + s)[..k - 1] == Zeros(k - 1) + s;
    }
  }

  lemma ValuePad(n: nat, width: nat)
    ensures Value(Pad(n, width)) == n
  {
    ValueDigits(n);
    if |Digits(n)| < width {
      ValueZeros(width - |Digits(n)|, Digits(n));
    }
  }

  /** A number below 10^width is formatted to exactly `width` characters. */
  lemma {:induction false} DigitsLength(n: nat, width: nat, bound: nat)
    requires width >= 1 && bound == Pow10(width) && n < bound
    ensures |Digits(n)| <= width
  {
    if n >= 10 {
      DigitsLength(n / 10, width - 1, Pow10(width - 1));
    }
  }

  function Pow10(k: nat): nat {
    if k == 0 then 1 else 10 * Pow10(k - 1)
  }

  lemma {:induction false} ParseDigitsValue(s: string)
    requires s != [] && AllDigits(s)
    ensures ParseDigits(s) == Some(Value(s))
  {
    if |s| > 1 {
      ParseDigitsValue(s[..|s| - 1]);
    }
  }

  /** int() undoes zero-padded formatting at every width. */
  lemma ParsePad(n: nat, width: nat)
    ensures ParseInt(Pad(n, width)) == Some(n)
  {
    var s := Pad(n, width);
    assert IsDigit(s[0]) && IsDigit(s[|s| - 1]);
    ParseDigitsValue(s);
    ValuePad(n, width);
  }

  // ---- `<` on strings ----

  predicate StrLess(a: string, b: string) {
    b != [] && (a == [] || a[0] < b[0] || (a[0] == b[0] && StrLess(a[1..], b[1..])))
  }

  lemma {:induction false} LessConcat(a: string, x: string, b: string, y: string)
    requires |a| == |b|
    ensures StrLess(a + x, b + y) <==> StrLess(a, b) || (a == b && StrLess(x, y))
  {
    if a == [] {
      assert a + x == x && b + y == y;
    } else {
      LessConcat(a[1..], x, b[1..], y);
      assert (a + x)[1..] == a[1..] + x && (b + y)[1..] == b[1..] + y;
      assert a == [a[0]] + a[1..] && b == [b[0]] + b[1..];
    }
  }

  /** On digit strings of one length, string order is numeric order. */
  lemma {:induction false} LessValue(a: string, b: string)
    requires |a| == |b| && AllDigits(a) && AllDigits(b)
    ensures StrLess(a, b) <==> Value(a) < Value(b)
    ensures a == b <==> Value(a) == Value(b)
  {
    if a != [] {
      var p, q := a[..|a| - 1], b[..|b| - 1];
      var x, y := [a[|a| - 1]], [b[|b| - 1]];
      LessValue(p, q);
      LessConcat(p, x, q, y);
      assert a == p + x && b == q + y;
    }
  }

  lemma PadLength(n: nat, width: nat)
    requires width >= 1 && n < Pow10(width)
    ensures |Pad(n, width)| == width
  {
    DigitsLength(n, width, Pow10(width));
  }
}
