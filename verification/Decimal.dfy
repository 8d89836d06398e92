/** Decimal text of a nonce and the key built from it, internal/mempool/tracker.go. */
module Decimal {
  import opened Prelude

  function DigitChar(d: nat): char
    requires d < 10
  {
    "0123456789"[d]
  }

  predicate IsDigit(c: char) {
    '0' <= c <= '9'
  }

  function DigitValue(c: char): nat
    requires IsDigit(c)
  {
    (c - '0') as nat
  }

  /** The decimal digits of n, most significant first. */
  function Dec(n: nat): string {
    if n < 10 then [DigitChar(n)] else Dec(n / 10) + [DigitChar(n % 10)]
  }

  predicate AllDigits(s: string) {
    forall c | c in s :: IsDigit(c)
  }

  /** The number that a string of digits denotes. */
  function Value(s: string): nat
    requires AllDigits(s)
  {
    if s == [] then 0 else 10 * Value(s[..|s| - 1]) + DigitValue(s[|s| - 1])
  }

  /** Parsing inverts printing. */
  lemma {:induction false} ParseInvertsPrint(n: nat)
    ensures AllDigits(Dec(n)) && Value(Dec(n)) == n
  {
    if n >= 10 {
      ParseInvertsPrint(n / 10);
      assert Dec(n)[..|Dec(n)| - 1] == Dec(n / 10);
    }
  }

  function Pow10(k: nat): nat {
    if k == 0 then 1 else 10 * Pow10(k - 1)
  }

  /** No leading zero, except in zero itself, and no more digits than needed. */
  lemma {:induction false} DecIsCanonical(n: nat, k: nat)
    requires k >= 1 && n < Pow10(k)
    ensures 1 <= |Dec(n)| <= k
    ensures Dec(n)[0] == '0' ==> n == 0
  {
    if n >= 10 {
      DecIsCanonical(n / 10, k - 1);
    }
  }

  lemma DecFitsIn20(n: uint64)
    ensures |Dec(n)| <= 20
  {
    assert Pow10(3) == 1000 && Pow10(6) == 1000000 && Pow10(9) == 1000000000;
    assert Pow10(12) == 1000000000000 && Pow10(15) == 1000000000000000 && Pow10(18) == 1000000000000000000;
    DecIsCanonical(n, 20);
  }

  function Reversed(s: string): (r: string)
    ensures |r| == |s|
  {
    if s == [] then [] else [s[|s| - 1]] + Reversed(s[..|s| - 1])
  }

  lemma {:induction false} ReversedAt(s: string, k: nat)
    requires k < |s|
    ensures Reversed(s)[k] == s[|s| - 1 - k]
  {
    if k > 0 {
      ReversedAt(s[..|s| - 1], k - 1);
    }
  }

  /** Swap the ends and move inwards. */
  method ReverseInPlace(buf: array<char>, len: nat)
    requires len <= buf.Length
    modifies buf
    ensures buf[..len] == Reversed(old(buf[..len]))
  {
    var i, j := 0, len - 1;
    while i < j
      invariant 0 <= i <= j + 2 && i + j == len - 1
      invariant forall k | 0 <= k < i :: buf[k] == old(buf[len - 1 - k]) && buf[len - 1 - k] == old(buf[k])
      invariant forall k | i <= k <= j :: buf[k] == old(buf[k])
    {
      buf[i], buf[j] := buf[j], buf[i];
      i, j := i + 1, j - 1;
    }
    ghost var was := old(buf[..len]);
    forall k | 0 <= k < len
      ensures buf[..len][k] == Reversed(was)[k]
    {
      ReversedAt(was, k);
    }
  }

  /** The digits still to come when n is left. */
  function Unwritten(n: nat): string {
    if n == 0 then "" else Dec(n)
  }

  lemma UnwrittenMeaning(n: nat)
    requires n > 0
    ensures Unwritten(n) == Dec(n) && Unwritten(0) == ""
  {
  }

  lemma LastDigit(n: nat)
    requires n > 0
    ensures Unwritten(n) == Unwritten(n / 10) + [DigitChar(n % 10)]
  {
  }

  lemma ReversedGrows(s: string, c: char)
    ensures Reversed(s + [c]) == [c] + Reversed(s) && Reversed([]) == []
  {
    assert (s + [c])[..|s|] == s;
  }

  /** Writing the lowest digit of what is left moves it from the unwritten to the written part. */
  lemma WriteDigit(n: nat, written: string)
    requires n > 0
    ensures Unwritten(n) + Reversed(written) == Unwritten(n / 10) + Reversed(written + [DigitChar(n % 10)])
    ensures |Unwritten(n)| == |Unwritten(n / 10)| + 1
  {
    hide Reversed, Unwritten, DigitChar;
    LastDigit(n);
    ReversedGrows(written, DigitChar(n % 10));
    assert Unwritten(n / 10) + [DigitChar(n % 10)] + Reversed(written)
        == Unwritten(n / 10) + ([DigitChar(n % 10)] + Reversed(written));
  }

  /** Append the digits from the least significant on. */
  method WriteDigits(v: uint64, buf: array<char>) returns (len: nat)
    requires v > 0 && buf.Length == 20
    modifies buf
    ensures len <= 20 && Reversed(buf[..len]) == Dec(v)
  {
    hide Dec, Reversed, Unwritten, DigitChar;
    DecFitsIn20(v);
    UnwrittenMeaning(v);
    ReversedGrows([], '0');
    var rest := v;
    ghost var written: string := [];
    len := 0;
    assert Unwritten(v) + Reversed([]) == Dec(v);
    while rest > 0
      invariant len == |written| && |Unwritten(rest)| + len == |Dec(v)| <= 20
      invariant buf[..len] == written
      invariant Unwritten(rest) + Reversed(written) == Dec(v)
      decreases rest
    {
      WriteDigit(rest, written);
      buf[len] := DigitChar(rest % 10);
      written := written + [DigitChar(rest % 10)];
      len := len + 1;
      rest := rest / 10;
    }
    assert "" + Reversed(written) == Reversed(written);
  }

  /** Write the digits backwards, then reverse the buffer; 20 places are enough. */
  method FmtUint64(v: uint64) returns (s: string)
    ensures s == Dec(v)
  {
    if v == 0 {
      return "0";
    }
    var buf := new char[20];
    var len := WriteDigits(v, buf);
    ReverseInPlace(buf, len);
    s := buf[..len];
  }

  /** The index key of a sender and a nonce. */
  function FromNonceKey(from: string, nonce: nat): string {
    from + ":" + Dec(nonce)
  }

  /** Behind the sender's own text and one separator there are only digits. */
  lemma DigitsBehindSeparator(from: string, nonce: nat, i: nat)
    requires |from| < i < |FromNonceKey(from, nonce)|
    ensures IsDigit(FromNonceKey(from, nonce)[i])
  {
    ParseInvertsPrint(nonce);
    assert Dec(nonce)[i - |from| - 1] in Dec(nonce);
  }

  /** The key determines sender and nonce, even when the sender contains the separator. */
  lemma KeyIsInjective(f: string, m: nat, g: string, n: nat)
    requires FromNonceKey(f, m) == FromNonceKey(g, n)
    ensures f == g && m == n
  {
    var k := FromNonceKey(f, m);
    assert k[|f|] == ':' && k[|g|] == ':';
    if |f| < |g| {
      DigitsBehindSeparator(f, m, |g|);
    } else if |g| < |f| {
      DigitsBehindSeparator(g, n, |f|);
    }
    assert f == k[..|f|] == g;
    assert Dec(m) == k[|f| + 1..] == Dec(n);
    ParseInvertsPrint(m);
    ParseInvertsPrint(n);
  }
}
