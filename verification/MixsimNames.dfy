/**
 Names on the wire between ndnSIM and the adaptor (ndnSIM/apps/ndn-app-mixsim.cpp): "prefix/number" is
 printed into a buffer on one side and split at the last slash on the other.
 */
module MixsimNames {
  import opened NameTable

  const SLASH: Byte := 47
  const TWO_32: nat := 0x1_0000_0000

  // ---- Printing ----

  /** %u */
  function Digits(n: nat): (d: seq<Byte>)
    ensures 0 < |d| && forall i | 0 <= i < |d| :: IsDigit(d[i])
  {
    if n < 10 then [(48 + n) as Byte] else Digits(n / 10) + [(48 + n % 10) as Byte]
  }

  predicate IsDigit(b: Byte) { 48 <= b <= 57 }

  /** "%s/%u" */
  function Printed(prefix: seq<Byte>, n: nat): seq<Byte> { prefix + [SLASH] + Digits(n) }

  function Pow10(k: nat): (p: nat)
    ensures p > 0
  {
    if k == 0 then 1 else 10 * Pow10(k - 1)
  }

  lemma {:induction false} DigitsFit(n: nat, k: nat)
    requires 0 < k
    ensures |Digits(n)| <= k <==> n < Pow10(k)
  {
    assert Pow10(1) == 10 * Pow10(0);
    if n >= 10 && k > 1 { DigitsFit(n / 10, k - 1); }
    else if n < 10 { PowGrows(k); }
  }

  lemma {:induction false} PowGrows(k: nat)
    requires 0 < k
    ensures 10 <= Pow10(k)
  {
    if k == 1 { assert Pow10(1) == 10 * Pow10(0); } else { PowGrows(k - 1); }
  }

  // ---- C strings and atoi ----

  /** The string that starts at a place: up to the first zero byte. */
  function CStr(s: seq<Byte>): seq<Byte> {
    if s == [] || s[0] == 0 then [] else [s[0]] + CStr(s[1..])
  }

  lemma {:induction false} CStrEnds(s: seq<Byte>, rest: seq<Byte>)
    ensures CStr(s + [0] + rest) == CStr(s)
  {
    var t := s + [0] + rest;
    if s != [] && s[0] != 0 {
      assert t[1..] == s[1..] + [0] + rest;
      CStrEnds(s[1..], rest);
    }
  }

  lemma {:induction false} CStrWhole(s: seq<Byte>)
    requires 0 !in s
    ensures CStr(s) == s
  {
    if s != [] { CStrWhole(s[1..]); }
  }

  /** The value of the digits that a string starts with. */
  function Number(s: seq<Byte>, acc: nat): nat {
    if s == [] || !IsDigit(s[0]) then acc else Number(s[1..], acc * 10 + (s[0] - 48) as nat)
  }

  predicate IsSpace(b: Byte) { b == 32 || 9 <= b <= 13 }

  /** atoi */
  function Atoi(s: seq<Byte>): int {
    if s == [] then 0
    else if IsSpace(s[0]) then Atoi(s[1..])
    else if s[0] == 45 then 0 - Number(s[1..], 0)
    else if s[0] == 43 then Number(s[1..], 0)
    else Number(s, 0)
  }

  lemma {:induction false} NumberSnoc(s: seq<Byte>, d: Byte, acc: nat)
    requires (forall i | 0 <= i < |s| :: IsDigit(s[i])) && IsDigit(d)
    ensures Number(s + [d], acc) == Number(s, acc) * 10 + (d - 48) as nat
  {
    var t := s + [d];
    if s == [] {
      assert t[1..] == [];
    } else {
      assert t[1..] == s[1..] + [d];
      NumberSnoc(s[1..], d, acc * 10 + (s[0] - 48) as nat);
    }
  }

  lemma {:induction false} NumberDigits(n: nat)
    ensures Number(Digits(n), 0) == n
  {
    if n < 10 {
      assert Digits(n)[1..] == [];
    } else {
      NumberDigits(n / 10);
      NumberSnoc(Digits(n / 10), (48 + n % 10) as Byte, 0);
    }
  }

  // ---- Splitting ----

  function LastSlash(s: seq<Byte>): (i: nat)
    requires SLASH in s
    ensures i < |s| && s[i] == SLASH && forall j | i < j < |s| :: s[j] != SLASH
  {
    if s[|s| - 1] == SLASH then |s| - 1 else LastSlash(s[..|s| - 1])
  }

  /** There is a slash, and what follows it fits the ten bytes of seqbuf with a zero byte. */
  predicate Splittable(s: seq<Byte>) {
    SLASH in s && |s| - LastSlash(s) - 1 < 10
  }

  function NameOf(s: seq<Byte>): seq<Byte>
    requires SLASH in s
  {
    CStr(s[..LastSlash(s)])
  }

  function NumberOf(s: seq<Byte>): int
    requires SLASH in s
  {
    Atoi(CStr(s[LastSlash(s) + 1..])) % TWO_32
  }

  /** snprintf(buf, 1024, "%s/%u", prefix, n): at most 1023 bytes and a zero byte; the whole length is returned. */
  method PrintName(buf: array<Byte>, prefix: seq<Byte>, n: nat) returns (nlen: nat)
    requires buf.Length >= 1024 && n < TWO_32
    modifies buf
    ensures nlen == |Printed(prefix, n)|
    ensures nlen < 1024 ==> buf[..nlen] == Printed(prefix, n)
    ensures nlen >= 1024 ==> buf[..1023] == Printed(prefix, n)[..1023] && buf[1023] == 0
  {
    var text := Printed(prefix, n);
    nlen := |text|;
    var kept := if nlen < 1024 then nlen else 1023;
    forall i | 0 <= i < kept { buf[i] := text[i]; }
    buf[kept] := 0;
    assert buf[..kept] == text[..kept];
  }

  /** memcpy of the bytes from..to of a buffer to the start of another, and a zero byte after them. */
  method CopyString(src: array<Byte>, from: nat, to: nat, dst: array<Byte>)
    requires from <= to <= src.Length && to - from < dst.Length && src != dst
    modifies dst
    ensures CStr(dst[..]) == CStr(src[from..to])
  {
    var n := to - from;
    forall i | 0 <= i < n { dst[i] := src[from + i]; }
    dst[n] := 0;
    assert dst[..] == src[from..to] + [0] + dst[n + 1..];
    CStrEnds(src[from..to], dst[n + 1..]);
  }

  /** How SendNDNInterest, SendNDNData and SendNDNNack take a name apart. */
  method SplitName(buf: array<Byte>, nlen: nat) returns (name: seq<Byte>, number: int)
    requires nlen <= buf.Length && nlen <= 2040 && Splittable(buf[..nlen])
    ensures name == NameOf(buf[..nlen]) && number == NumberOf(buf[..nlen])
  {
    var namebuf, seqbuf := new Byte[2048], new Byte[10];
    ghost var s := buf[..nlen];
    var idx := nlen - 1;
    while buf[idx] != SLASH
      invariant LastSlash(s) <= idx < nlen
      decreases idx
    {
      assert idx != LastSlash(s);
      idx := idx - 1;
    }
    assert idx == LastSlash(s) && s[..idx] == buf[0..idx] && s[idx + 1..] == buf[idx + 1..nlen];
    CopyString(buf, 0, idx, namebuf);
    idx := idx + 1;
    CopyString(buf, idx, nlen, seqbuf);
    number := Atoi(CStr(seqbuf[..])) % TWO_32;
    name := CStr(namebuf[..]);
  }

  // ---- Round trip ----

  lemma PrintedSlash(prefix: seq<Byte>, n: nat)
    ensures SLASH in Printed(prefix, n) && LastSlash(Printed(prefix, n)) == |prefix|
    ensures Printed(prefix, n)[..|prefix|] == prefix && Printed(prefix, n)[|prefix| + 1..] == Digits(n)
  {
    var s := Printed(prefix, n);
    assert s[|prefix|] == SLASH;
    assert forall j | |prefix| < j < |s| :: s[j] == Digits(n)[j - |prefix| - 1];
  }

  /** A printed name fits the buffers of the other side exactly if the number is below 10^9. */
  lemma SplittableExactly(prefix: seq<Byte>, n: nat)
    ensures Splittable(Printed(prefix, n)) <==> n < 1_000_000_000
  {
    PrintedSlash(prefix, n);
    DigitsFit(n, 9);
    assert Pow10(9) == 1_000_000_000;
  }

  /**
   What is printed is taken apart into the same prefix, slashes in it or not, and the same number, if an
   int holds it.
   */
  lemma RoundTrip(prefix: seq<Byte>, n: nat)
    requires 0 !in prefix && n < 0x8000_0000
    ensures SLASH in Printed(prefix, n)
    ensures NameOf(Printed(prefix, n)) == prefix && NumberOf(Printed(prefix, n)) == n
  {
    PrintedSlash(prefix, n);
    CStrWhole(prefix);
    CStrWhole(Digits(n));
    NumberDigits(n);
    assert IsDigit(Digits(n)[0]);
  }

  /** Both sides together, over one buffer. */
  method Relay(buf: array<Byte>, prefix: seq<Byte>, n: nat) returns (name: seq<Byte>, number: int)
    requires buf.Length == 2040 && 0 !in prefix && n < 1_000_000_000 && |Printed(prefix, n)| < 1024
    modifies buf
    ensures name == prefix && number == n
  {
    var nlen := PrintName(buf, prefix, n);
    SplittableExactly(prefix, n);
    RoundTrip(prefix, n);
    name, number := SplitName(buf, nlen);
  }
}
