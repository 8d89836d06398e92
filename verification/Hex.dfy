/** Hexadecimal text: parseHexUint of internal/mempool/subscriber.go, and the text of hashes and addresses. */
module Hexadecimal {
  import opened Prelude

  /** The value of a hexadecimal digit in either case. */
  function Nibble(c: char): Option<nat> {
    if '0' <= c <= '9' then Some((c - '0') as nat)
    else if 'a' <= c <= 'f' then Some((c - 'a') as nat + 10)
    else if 'A' <= c <= 'F' then Some((c - 'A') as nat + 10)
    else None
  }

  predicate AllHex(s: string) {
    forall c | c in s :: Nibble(c).Some?
  }

  function HexValue(s: string): nat
    requires AllHex(s)
  {
    if s == [] then 0 else 16 * HexValue(s[..|s| - 1]) + Nibble(s[|s| - 1]).value
  }

  /** Every leading 0x is stripped. */
  function Stripped(v: string): string {
    if |v| > 1 && v[..2] == "0x" then Stripped(v[2..]) else v
  }

  /** The number denoted by what is left, modulo 2^64, unless some character is no hexadecimal digit. */
  function Parsed(v: string): Option<uint64> {
    if AllHex(Stripped(v)) then Some(Wrap(HexValue(Stripped(v)))) else None
  }

  lemma ModAdd(k: nat, r: nat)
    ensures Wrap(k * TWO_64 + r) == Wrap(r)
  {
  }

  lemma WrapShift(x: nat, d: nat)
    requires d < 16
    ensures Wrap(Wrap(16 * Wrap(x)) + d) == Wrap(16 * x + d)
  {
    var q := x / TWO_64;
    assert x == q * TWO_64 + Wrap(x);
    var y := 16 * Wrap(x);
    var p := y / TWO_64;
    assert y == p * TWO_64 + Wrap(y);
    assert 16 * x + d == (16 * q + p) * TWO_64 + (Wrap(y) + d);
    ModAdd(16 * q + p, Wrap(y) + d);
  }

  method ParseHexUint(v: string) returns (r: Option<uint64>)
    ensures r == Parsed(v)
    decreases |v|
  {
    if |v| > 1 && v[..2] == "0x" {
      r := ParseHexUint(v[2..]);
      return;
    }
    var out: uint64 := 0;
    for i := 0 to |v|
      invariant AllHex(v[..i]) && out == Wrap(HexValue(v[..i]))
    {
      var d := Nibble(v[i]);
      if d.None? {
        assert v[i] in v;
        return None;
      }
      assert v[..i + 1][..i] == v[..i];
      WrapShift(HexValue(v[..i]), d.value);
      out := Wrap(16 * out);
      out := Wrap(out + d.value);
    }
    assert v[..|v|] == v;
    return Some(out);
  }

  function HexDigit(d: nat): char
    requires d < 16
  {
    "0123456789abcdef"[d]
  }

  /** The shortest lower-case text of n, as EIP-1474 encodes a quantity after its prefix. */
  function Hex(n: nat): string {
    if n < 16 then [HexDigit(n)] else Hex(n / 16) + [HexDigit(n % 16)]
  }

  function Lower(s: string): (r: string)
    ensures |r| == |s|
  {
    if s == [] then []
    else
      var c := s[|s| - 1];
      Lower(s[..|s| - 1]) + [if 'A' <= c <= 'Z' then (c as int + 32) as char else c]
  }

  function Zeros(k: nat): string {
    if k == 0 then "" else "0" + Zeros(k - 1)
  }

  lemma AllHexAppend(s: string, c: char)
    ensures AllHex(s + [c]) <==> AllHex(s) && Nibble(c).Some?
  {
    assert (s + [c])[|s|] == c;
    assert forall d | d in s :: d in s + [c];
  }

  lemma HexValueAppend(s: string, c: char)
    requires AllHex(s) && Nibble(c).Some?
    ensures AllHex(s + [c]) && HexValue(s + [c]) == 16 * HexValue(s) + Nibble(c).value
  {
    AllHexAppend(s, c);
    assert (s + [c])[..|s|] == s;
  }

  lemma NibbleOfDigit(d: nat)
    requires d < 16
    ensures Nibble(HexDigit(d)) == Some(d)
  {
  }

  lemma HexValueOfEmpty()
    ensures AllHex("") && HexValue("") == 0
  {
  }

  lemma {:induction false} HexValueOfHex(n: nat)
    ensures AllHex(Hex(n)) && HexValue(Hex(n)) == n
  {
    hide Nibble, HexDigit, HexValue, AllHex;
    NibbleOfDigit(n % 16);
    if n < 16 {
      HexValueOfEmpty();
      HexValueAppend("", HexDigit(n));
      assert "" + [HexDigit(n)] == [HexDigit(n)];
    } else {
      HexValueOfHex(n / 16);
      HexValueAppend(Hex(n / 16), HexDigit(n % 16));
    }
  }

  lemma {:induction false} CaseDoesNotMatter(s: string)
    ensures AllHex(Lower(s)) <==> AllHex(s)
    ensures AllHex(s) ==> HexValue(Lower(s)) == HexValue(s)
  {
    if s != [] {
      var init := s[..|s| - 1];
      CaseDoesNotMatter(init);
      assert Lower(s)[..|s| - 1] == Lower(init);
      assert s == init + [s[|s| - 1]];
      AllHexAppend(init, s[|s| - 1]);
      AllHexAppend(Lower(init), Lower(s)[|s| - 1]);
    }
  }

  lemma {:induction false} LeadingZero(s: string)
    requires AllHex(s)
    ensures AllHex("0" + s) && HexValue("0" + s) == HexValue(s)
  {
    if s == [] {
      assert "0" + s == "0" && "0"[..0] == "";
    } else {
      LeadingZero(s[..|s| - 1]);
      assert ("0" + s)[..|s|] == "0" + s[..|s| - 1];
    }
  }

  lemma {:induction false} ZerosDoNotMatter(k: nat, s: string)
    requires AllHex(s)
    ensures AllHex(Zeros(k) + s) && HexValue(Zeros(k) + s) == HexValue(s)
  {
    hide HexValue, AllHex;
    if k == 0 {
      assert Zeros(0) + s == s;
    } else {
      ZerosDoNotMatter(k - 1, s);
      assert Zeros(k) + s == "0" + (Zeros(k - 1) + s);
      LeadingZero(Zeros(k - 1) + s);
    }
  }

  lemma HexHasNoPrefix(s: string)
    requires AllHex(s)
    ensures Stripped(s) == s
  {
    if |s| > 1 {
      assert s[1] in s;
      assert s[..2][1] == s[1];
    }
  }

  lemma PrefixIsStripped(s: string)
    ensures Stripped("0x" + s) == Stripped(s)
  {
    assert ("0x" + s)[..2] == "0x" && ("0x" + s)[2..] == s;
  }

  /** Every uint64 comes back from its text, in any digit case, with any leading zeros, with or without prefixes. */
  lemma QuantityRoundTrip(n: uint64, k: nat, s: string)
    requires Lower(s) == Zeros(k) + Hex(n)
    ensures Parsed(s) == Parsed("0x" + s) == Parsed("0x" + ("0x" + s)) == Some(n)
  {
    hide Stripped, Hex, Lower, Zeros, HexValue, AllHex;
    HexValueOfHex(n);
    ZerosDoNotMatter(k, Hex(n));
    CaseDoesNotMatter(s);
    HexHasNoPrefix(s);
    PrefixIsStripped(s);
    PrefixIsStripped("0x" + s);
  }

  /** Exactly the texts with a character that is no hexadecimal digit behind the prefixes are rejected. */
  lemma RejectsIffBadDigit(v: string)
    ensures Parsed(v).None? <==> exists i :: 0 <= i < |Stripped(v)| && Nibble(Stripped(v)[i]).None?
  {
    var t := Stripped(v);
    if Parsed(v).None? {
      var c :| c in t && Nibble(c).None?;
      var i :| 0 <= i < |t| && t[i] == c;
      assert 0 <= i < |Stripped(v)| && Nibble(Stripped(v)[i]).None?;
    }
    if exists i :: 0 <= i < |Stripped(v)| && Nibble(Stripped(v)[i]).None? {
      var i :| 0 <= i < |Stripped(v)| && Nibble(Stripped(v)[i]).None?;
      assert t[i] in t && !AllHex(t);
    }
  }

  /** Exactly the sixteen digits in either case have a value. */
  lemma DigitsInEitherCase(c: char)
    ensures Nibble(c).Some? <==> c in "0123456789abcdefABCDEF"
    ensures Nibble(c).Some? ==>
              Nibble(c).value < 16 &&
              (c == HexDigit(Nibble(c).value) || c == "0123456789ABCDEF"[Nibble(c).value])
  {
    if c in "0123456789abcdefABCDEF" {
      var i :| 0 <= i < 22 && "0123456789abcdefABCDEF"[i] == c;
    }
    if n :| Nibble(c) == Some(n) {
      assert c == "0123456789abcdefABCDEF"[n] || c == "0123456789abcdefABCDEF"[n + 6];
    }
  }

  function Prefixes(k: nat): string {
    if k == 0 then "" else "0x" + Prefixes(k - 1)
  }

  /** Nothing but prefixes is stripped, and none is left. */
  lemma {:induction false} OnlyPrefixesAreStripped(v: string) returns (k: nat)
    ensures v == Prefixes(k) + Stripped(v)
    ensures |Stripped(v)| > 1 ==> Stripped(v)[..2] != "0x"
    decreases |v|
  {
    k := 0;
    if |v| > 1 && v[..2] == "0x" {
      var rest := OnlyPrefixesAreStripped(v[2..]);
      k := rest + 1;
      assert v == "0x" + v[2..];
      assert v == Prefixes(k) + Stripped(v[2..]);
    } else {
      assert Prefixes(0) + v == v;
    }
  }

  function Pow16(k: nat): nat {
    if k == 0 then 1 else 16 * Pow16(k - 1)
  }

  lemma {:induction false} HexValueConcat(s: string, t: string)
    requires AllHex(s) && AllHex(t)
    ensures AllHex(s + t) && HexValue(s + t) == HexValue(s) * Pow16(|t|) + HexValue(t)
  {
    hide Nibble, HexValue, AllHex;
    HexValueOfEmpty();
    if |t| == 0 {
      assert s + t == s && t == "";
    } else {
      var n := |t| - 1;
      AllHexAppend(t[..n], t[n]);
      assert t == t[..n] + [t[n]] && s + t == s + t[..n] + [t[n]];
      HexValueConcat(s, t[..n]);
      HexValueAppend(t[..n], t[n]);
      HexValueAppend(s + t[..n], t[n]);
      assert HexValue(s) * Pow16(|t|) == 16 * (HexValue(s) * Pow16(n));
    }
  }

  /** Of a number too long for a uint64 the last sixteen digits are left. */
  lemma OnlyLast16DigitsCount(s: string, t: string)
    requires AllHex(s) && AllHex(t) && |t| == 16
    ensures Parsed(s + t) == Parsed("0x" + (s + t)) == Parsed(t) && Parsed(t).Some?
  {
    hide Nibble, HexValue, AllHex;
    HexValueConcat(s, t);
    assert Pow16(4) == 0x1_0000 && Pow16(8) == 0x1_0000_0000 && Pow16(12) == 0x1_0000_0000_0000;
    assert Pow16(16) == TWO_64;
    ModAdd(HexValue(s), HexValue(t));
    HexHasNoPrefix(s + t);
    HexHasNoPrefix(t);
    PrefixIsStripped(s + t);
  }
}
