/**
 * UUIDs as 128-bit numbers, and their hex-and-dash text form
 * (section 4 of RFC 9562).
 */
module Uuids {
  import opened Common

  const UUID_LIMIT: nat := 0x1_0000_0000_0000_0000_0000_0000_0000_0000

  type Uuid = n: nat | n < UUID_LIMIT

  function Pow16(k: nat): nat {
    if k == 0 then 1 else 16 * Pow16(k - 1)
  }

  lemma {:induction false} Pow16Add(a: nat, b: nat)
    ensures Pow16(a + b) == Pow16(a) * Pow16(b)
  {
    if a > 0 {
      Pow16Add(a - 1, b);
      assert 16 * (Pow16(a - 1) * Pow16(b)) == (16 * Pow16(a - 1)) * Pow16(b);
    }
  }

  /** 32 hex digits are exactly 128 bits. */
  lemma Pow16Of32()
    ensures Pow16(32) == UUID_LIMIT
  {
    assert Pow16(2) == 16 * Pow16(1) == 0x100;
    Pow16Add(2, 2);
    Pow16Add(4, 4);
    Pow16Add(8, 8);
    Pow16Add(16, 16);
  }

  function HexDigit(d: nat): char
    requires d < 16
  {
    if d < 10 then '0' + d as char else 'a' + (d - 10) as char
  }

  /** The value of a hex digit in either case. */
  function DigitValue(c: char): Option<nat> {
    if '0' <= c <= '9' then Some((c - '0') as nat)
    else if 'a' <= c <= 'f' then Some((c - 'a') as nat + 10)
    else if 'A' <= c <= 'F' then Some((c - 'A') as nat + 10)
    else None
  }

  /** The low `k` hex digits of `n`, most significant first. */
  function Hex(n: nat, k: nat): (h: string)
    ensures |h| == k
  {
    if k == 0 then [] else Hex(n / 16, k - 1) + [HexDigit(n % 16)]
  }

  function HexValue(h: string): Option<nat> {
    if h == [] then Some(0)
    else
      match (HexValue(h[..|h| - 1]), DigitValue(h[|h| - 1]))
      case (Some(v), Some(d)) => Some(16 * v + d)
      case _ => None
  }

  function WithDashes(h: string): (t: string)
    requires |h| == 32
    ensures |t| == 36
  {
    h[..8] + "-" + h[8..12] + "-" + h[12..16] + "-" + h[16..20] + "-" + h[20..]
  }

  predicate Dashed(t: string) {
    |t| == 36 && t[8] == '-' && t[13] == '-' && t[18] == '-' && t[23] == '-'
  }

  function WithoutDashes(t: string): (h: string)
    requires |t| == 36
    ensures |h| == 32
  {
    t[..8] + t[9..13] + t[14..18] + t[19..23] + t[24..]
  }

  lemma DashesInvert(h: string)
    requires |h| == 32
    ensures Dashed(WithDashes(h)) && WithoutDashes(WithDashes(h)) == h
  {
    var t := WithDashes(h);
    assert t[..8] == h[..8];
    assert t[9..13] == h[8..12];
    assert t[14..18] == h[12..16];
    assert t[19..23] == h[16..20];
    assert t[24..] == h[20..];
    assert h[..8] + h[8..12] == h[..12];
    assert h[..12] + h[12..16] == h[..16];
    assert h[..16] + h[16..20] == h[..20];
    assert h[..20] + h[20..] == h;
  }

  function UuidText(u: Uuid): (t: string)
    ensures |t| == 36
  {
    WithDashes(Hex(u, 32))
  }

  function ParseHex(h: string): Option<Uuid>
    requires |h| == 32
  {
    match HexValue(h)
    case Some(v) => HexValueBound(h); Some(v)
    case None => None
  }

  function ParseDashed(t: string): Option<Uuid> {
    if Dashed(t) then ParseHex(WithoutDashes(t)) else None
  }

  function LowerCase(c: char): char {
    if 'A' <= c <= 'Z' then c - 'A' + 'a' else c
  }

  predicate HasUrnPrefix(t: string)
    requires |t| >= 9
  {
    seq(9, i requires 0 <= i < 9 => LowerCase(t[i])) == "urn:uuid:"
  }

  /**
   * uuid.Parse: tells its four forms apart by length alone. Of the form in
   * braces the first and last characters are not looked at.
   */
  function ParseUuid(t: string): Option<Uuid> {
    if |t| == 36 then ParseDashed(t)
    else if |t| == 45 then (if HasUrnPrefix(t) then ParseDashed(t[9..]) else None)
    else if |t| == 38 then ParseDashed(t[1..37])
    else if |t| == 32 then ParseHex(t)
    else None
  }

  lemma {:induction false} HexValueBound(h: string)
    ensures HexValue(h).Some? ==> HexValue(h).value < Pow16(|h|)
    ensures |h| == 32 && HexValue(h).Some? ==> HexValue(h).value < UUID_LIMIT
  {
    if h != [] {
      HexValueBound(h[..|h| - 1]);
    }
    Pow16Of32();
  }

  lemma {:induction false} HexRoundTrip(n: nat, k: nat)
    requires n < Pow16(k)
    ensures HexValue(Hex(n, k)) == Some(n)
  {
    if k > 0 {
      HexRoundTrip(n / 16, k - 1);
      assert Hex(n, k)[..k - 1] == Hex(n / 16, k - 1);
    }
  }

  /** Every UUID's text form parses back to that UUID, and so do its bare, braced and URN forms. */
  lemma ParseUuidText(u: Uuid)
    ensures ParseUuid(UuidText(u)) == Some(u)
    ensures ParseUuid(Hex(u, 32)) == Some(u)
    ensures ParseUuid("{" + UuidText(u) + "}") == Some(u)
    ensures ParseUuid("urn:uuid:" + UuidText(u)) == Some(u)
  {
    DashesInvert(Hex(u, 32));
    Pow16Of32();
    HexRoundTrip(u, 32);
    var braced, urn := "{" + UuidText(u) + "}", "urn:uuid:" + UuidText(u);
    assert braced[1..37] == UuidText(u) && urn[9..] == UuidText(u);
    assert HasUrnPrefix(urn);
  }

  lemma {:induction false} HexIsLowerCase(n: nat, k: nat, i: nat)
    requires i < k
    ensures '0' <= Hex(n, k)[i] <= '9' || 'a' <= Hex(n, k)[i] <= 'f'
  {
    if i < k - 1 {
      HexIsLowerCase(n / 16, k - 1, i);
    }
  }

  lemma TextIsLowerCase(u: Uuid, i: nat)
    requires i < 36 && i !in {8, 13, 18, 23}
    ensures '0' <= UuidText(u)[i] <= '9' || 'a' <= UuidText(u)[i] <= 'f'
  {
    var k := if i < 8 then i else if i < 13 then i - 1 else if i < 18 then i - 2 else if i < 23 then i - 3 else i - 4;
    HexIsLowerCase(u, 32, k);
    assert UuidText(u)[i] == Hex(u, 32)[k];
  }

  /** The text form: groups of 8, 4, 4, 4 and 12 lower-case hex digits, most significant first. */
  lemma UuidTextForm(u: Uuid)
    ensures var t := UuidText(u);
            && |t| == 36
            && (forall i :: 0 <= i < 36 ==>
                  if i in {8, 13, 18, 23} then t[i] == '-'
                  else '0' <= t[i] <= '9' || 'a' <= t[i] <= 'f')
            && HexValue(t[..8] + t[9..13] + t[14..18] + t[19..23] + t[24..]) == Some(u)
  {
    DashesInvert(Hex(u, 32));
    Pow16Of32();
    HexRoundTrip(u, 32);
    forall i | 0 <= i < 36 && i !in {8, 13, 18, 23}
      ensures '0' <= UuidText(u)[i] <= '9' || 'a' <= UuidText(u)[i] <= 'f'
    {
      TextIsLowerCase(u, i);
    }
  }
}
