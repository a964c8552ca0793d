// The external invoice id: merchant and order joined by '_', with every hyphen removed.
module Invoices {
  import opened Entities

  function HexDigit(d: nat): char
    requires d < 16
  {
    if d < 10 then ('0' as int + d) as char else ('a' as int + d - 10) as char
  }

  // The n low hexadecimal digits of u, most significant first.
  function HexText(u: nat, n: nat): (s: string)
    ensures |s| == n
  {
    if n == 0 then "" else HexText(u / 16, n - 1) + [HexDigit(u % 16)]
  }

  // The 8-4-4-4-12 text form of section 4 of RFC 9562.
  function UuidText(u: Uuid): string {
    var h := HexText(u, 32);
    h[..8] + "-" + h[8..12] + "-" + h[12..16] + "-" + h[16..20] + "-" + h[20..]
  }

  lemma {:induction false} UuidTextForm(u: Uuid)
    ensures |UuidText(u)| == 36
    ensures forall i :: 0 <= i < 36 ==> (UuidText(u)[i] == '-' <==> i == 8 || i == 13 || i == 18 || i == 23)
  {
    var h := HexText(u, 32);
    HexTextHasNoHyphen(u, 32);
    assert forall i :: 0 <= i < 32 ==> h[i] in h;
  }

  function WithoutHyphens(s: string): string {
    if s == "" then ""
    else (if s[0] == '-' then "" else [s[0]]) + WithoutHyphens(s[1..])
  }

  function InvoiceId(merchantId: Uuid, orderId: string): string {
    WithoutHyphens(UuidText(merchantId) + "_" + orderId)
  }

  lemma {:induction false} WithoutHyphensConcat(a: string, b: string)
    ensures WithoutHyphens(a + b) == WithoutHyphens(a) + WithoutHyphens(b)
  {
    if a == "" {
      assert a + b == b;
    } else {
      assert (a + b)[1..] == a[1..] + b;
      WithoutHyphensConcat(a[1..], b);
    }
  }

  lemma {:induction false} WithoutHyphensId(s: string)
    requires '-' !in s
    ensures WithoutHyphens(s) == s
  {
    if s != "" {
      WithoutHyphensId(s[1..]);
    }
  }

  lemma {:induction false} HexTextHasNoHyphen(u: nat, n: nat)
    ensures '-' !in HexText(u, n)
  {
    if n > 0 {
      HexTextHasNoHyphen(u / 16, n - 1);
    }
  }

  function Pow16(n: nat): nat {
    if n == 0 then 1 else 16 * Pow16(n - 1)
  }

  // The value of a lower-case hexadecimal digit.
  function DigitValue(c: char): nat {
    match c
    case '1' => 1
    case '2' => 2
    case '3' => 3
    case '4' => 4
    case '5' => 5
    case '6' => 6
    case '7' => 7
    case '8' => 8
    case '9' => 9
    case 'a' => 10
    case 'b' => 11
    case 'c' => 12
    case 'd' => 13
    case 'e' => 14
    case 'f' => 15
    case _ => 0
  }

  // A text read in base 16.
  function ReadHex(s: string): nat {
    if s == "" then 0 else 16 * ReadHex(s[..|s| - 1]) + DigitValue(s[|s| - 1])
  }

  lemma {:induction false} HexTextReads(u: nat, n: nat)
    requires u < Pow16(n)
    ensures ReadHex(HexText(u, n)) == u
    ensures forall c :: c in HexText(u, n) ==> c == '0' || DigitValue(c) > 0
  {
    if n > 0 {
      var before := HexText(u / 16, n - 1);
      HexTextReads(u / 16, n - 1);
      assert (before + [HexDigit(u % 16)])[..n - 1] == before;
    }
  }

  lemma {:induction false} UuidBound(u: Uuid)
    ensures u < Pow16(32)
  {
    assert Pow16(8) == 0x1_0000_0000;
    assert Pow16(16) == 0x1_0000_0000_0000_0000 by {
      assert Pow16(12) == 0x1_0000_0000_0000;
    }
    assert Pow16(24) == 0x1_0000_0000_0000_0000_0000_0000 by {
      assert Pow16(20) == 0x1_0000_0000_0000_0000_0000;
    }
    assert Pow16(28) == 0x1_0000_0000_0000_0000_0000_0000_0000;
  }

  lemma {:induction false} AppendGroup(prefix: string, stripped: string, group: string)
    requires WithoutHyphens(prefix) == stripped
    requires '-' !in group
    ensures WithoutHyphens(prefix + "-" + group) == stripped + group
  {
    WithoutHyphensConcat(prefix + "-", group);
    WithoutHyphensConcat(prefix, "-");
    WithoutHyphensId(group);
    assert WithoutHyphens("-") == "";
    assert stripped + "" == stripped;
  }

  lemma {:induction false} UuidTextStripped(u: Uuid)
    ensures WithoutHyphens(UuidText(u)) == HexText(u, 32)
  {
    var h := HexText(u, 32);
    HexTextHasNoHyphen(u, 32);
    WithoutHyphensId(h[..8]);
    var p1 := h[..8] + "-" + h[8..12];
    AppendGroup(h[..8], h[..8], h[8..12]);
    assert h[..8] + h[8..12] == h[..12];
    var p2 := p1 + "-" + h[12..16];
    AppendGroup(p1, h[..12], h[12..16]);
    assert h[..12] + h[12..16] == h[..16];
    var p3 := p2 + "-" + h[16..20];
    AppendGroup(p2, h[..16], h[16..20]);
    assert h[..16] + h[16..20] == h[..20];
    AppendGroup(p3, h[..20], h[20..]);
    assert h[..20] + h[20..] == h;
  }

  // Removing hyphens leaves the 32 digits of the merchant, the separator and the stripped order id.
  lemma {:induction false} InvoiceIdForm(merchantId: Uuid, orderId: string)
    ensures InvoiceId(merchantId, orderId) == HexText(merchantId, 32) + "_" + WithoutHyphens(orderId)
  {
    UuidTextStripped(merchantId);
    WithoutHyphensConcat(UuidText(merchantId) + "_", orderId);
    WithoutHyphensConcat(UuidText(merchantId), "_");
    WithoutHyphensId("_");
  }

  // Read in base 16 the first 32 characters, all lower-case digits, give the merchant.
  lemma {:induction false} InvoiceIdReads(merchantId: Uuid, orderId: string)
    ensures var id := InvoiceId(merchantId, orderId);
            && |id| > 32 && ReadHex(id[..32]) == merchantId && id[32] == '_'
            && (forall c :: c in id[..32] ==> c == '0' || DigitValue(c) > 0)
            && '-' !in id
  {
    var id := InvoiceId(merchantId, orderId);
    InvoiceIdForm(merchantId, orderId);
    UuidBound(merchantId);
    HexTextReads(merchantId, 32);
    assert id[..32] == HexText(merchantId, 32);
    NoHyphenLeft(orderId);
    HexTextHasNoHyphen(merchantId, 32);
  }

  lemma {:induction false} NoHyphenLeft(s: string)
    ensures '-' !in WithoutHyphens(s)
  {
    if s != "" {
      NoHyphenLeft(s[1..]);
    }
  }

  // What is stripped: the hyphens and nothing else, one character at a time.
  lemma {:induction false} StrippingMeans(a: string, c: char, b: string)
    ensures WithoutHyphens("") == ""
    ensures WithoutHyphens(a + [c] + b) == WithoutHyphens(a) + (if c == '-' then "" else [c]) + WithoutHyphens(b)
  {
    WithoutHyphensConcat(a + [c], b);
    WithoutHyphensConcat(a, [c]);
  }

  // Two payments share an invoice id exactly when the merchant is the same and the
  // order ids differ at most in hyphens.
  lemma {:induction false} InvoiceIdsAgree(m1: Uuid, o1: string, m2: Uuid, o2: string)
    ensures InvoiceId(m1, o1) == InvoiceId(m2, o2) <==> m1 == m2 && WithoutHyphens(o1) == WithoutHyphens(o2)
  {
    InvoiceIdForm(m1, o1);
    InvoiceIdForm(m2, o2);
    if InvoiceId(m1, o1) == InvoiceId(m2, o2) {
      var s, t := InvoiceId(m1, o1), InvoiceId(m2, o2);
      InvoiceIdReads(m1, o1);
      InvoiceIdReads(m2, o2);
      assert s[33..] == WithoutHyphens(o1) && t[33..] == WithoutHyphens(o2);
    }
  }
}
