/** Transfer commands and the payload their fingerprint is taken of. */
module Fingerprint {
  import opened Decimals
  import Printer
  import Canonical

  const UUID_LIMIT: nat := 0x1_0000_0000_0000_0000_0000_0000_0000_0000

  // Sixteen bytes read as one number; PostgreSQL orders uuids by that number.
  type Uuid = n: nat | n < UUID_LIMIT

  const TRANSFER_OPERATION_VERSION := "transfer:v1"
  const NUL := "\0"

  datatype Command = Command(sender: Uuid, receiver: Uuid, key: string, amount: Decimal)

  function HexChar(n: nat): (c: char)
    requires n < 16
    ensures c != '\0'
  {
    if n < 10 then (n + '0' as int) as char else (n - 10 + 'a' as int) as char
  }

  // The k lowest hexadecimal digits, highest first.
  function Hex(n: nat, k: nat): (s: string)
    ensures |s| == k
  {
    if k == 0 then "" else Hex(n / 16, k - 1) + [HexChar(n % 16)]
  }

  function Power16(k: nat): (p: nat)
    ensures p > 0
  {
    if k == 0 then 1 else 16 * Power16(k - 1)
  }

  lemma {:induction false} HexInjective(m: nat, n: nat, k: nat)
    requires m < Power16(k) && n < Power16(k) && Hex(m, k) == Hex(n, k)
    ensures m == n
  {
    if k > 0 {
      var hm, hn := Hex(m, k), Hex(n, k);
      assert hm[k - 1] == HexChar(m % 16) && hn[k - 1] == HexChar(n % 16);
      assert hm[..k - 1] == Hex(m / 16, k - 1) && hn[..k - 1] == Hex(n / 16, k - 1);
      HexInjective(m / 16, n / 16, k - 1);
    }
  }

  // uuid.UUID.String: 8-4-4-4-12 hexadecimal digits.
  function UuidText(id: Uuid): (s: string)
    ensures |s| == 36
  {
    Grouped(Hex(id, 32))
  }

  function Grouped(h: string): (s: string)
    requires |h| == 32
    ensures |s| == 36
  {
    h[..8] + "-" + h[8..12] + "-" + h[12..16] + "-" + h[16..20] + "-" + h[20..]
  }

  lemma GroupedInjective(h: string, g: string)
    requires |h| == 32 && |g| == 32 && Grouped(h) == Grouped(g)
    ensures h == g
  {
    forall i | 0 <= i < 32
      ensures h[i] == g[i]
    {
      var k := if i < 8 then i else if i < 12 then i + 1 else if i < 16 then i + 2
        else if i < 20 then i + 3 else i + 4;
      assert Grouped(h)[k] == h[i];
      assert Grouped(g)[k] == g[i];
    }
  }

  lemma UuidTextInjective(a: Uuid, b: Uuid)
    requires UuidText(a) == UuidText(b)
    ensures a == b
  {
    hide Grouped, Hex;
    GroupedInjective(Hex(a, 32), Hex(b, 32));
    Power16Limit();
    HexInjective(a, b, 32);
  }

  function HexDigit(c: char): nat {
    if '0' <= c <= '9' then c as int - '0' as int
    else if 'a' <= c <= 'f' then c as int - 'a' as int + 10
    else 0
  }

  function ReadHex(s: string): nat {
    if s == [] then 0 else 16 * ReadHex(s[..|s| - 1]) + HexDigit(s[|s| - 1])
  }

  lemma {:induction false} HexReads(n: nat, k: nat)
    requires n < Power16(k)
    ensures ReadHex(Hex(n, k)) == n
  {
    if k > 0 {
      HexReads(n / 16, k - 1);
      assert Hex(n, k)[..k - 1] == Hex(n / 16, k - 1);
    }
  }

  // The text of a uuid: hyphens behind 8, 12, 16 and 20 digits, and digits that read as the uuid, the
  // highest first.
  lemma UuidTextReads(id: Uuid)
    ensures var s := UuidText(id);
      && s[8] == '-' && s[13] == '-' && s[18] == '-' && s[23] == '-'
      && ReadHex(s[..8] + s[9..13] + s[14..18] + s[19..23] + s[24..]) == id
  {
    hide Hex;
    var h := Hex(id, 32);
    var g := Grouped(h);
    assert g[..8] == h[..8] && g[9..13] == h[8..12] && g[14..18] == h[12..16];
    assert g[19..23] == h[16..20] && g[24..] == h[20..];
    assert h[..8] + h[8..12] + h[12..16] + h[16..20] + h[20..] == h;
    Power16Limit();
    HexReads(id, 32);
  }

  lemma Power16Limit()
    ensures Power16(32) == UUID_LIMIT
  {
    assert Power16(4) == 0x1_0000;
    Power16Add(4, 4);
    Power16Add(8, 8);
    Power16Add(16, 16);
  }

  lemma {:induction false} Power16Add(m: nat, n: nat)
    ensures Power16(m + n) == Power16(m) * Power16(n)
  {
    if m > 0 {
      Power16Add(m - 1, n);
    }
  }

  // What transferFingerprint hashes.
  function Payload(c: Command): string {
    TRANSFER_OPERATION_VERSION + NUL + UuidText(c.sender) + NUL + UuidText(c.receiver) + NUL +
    Printer.Print(c.amount)
  }

  // Two payloads are equal exactly when sender, receiver and numeric amount are.
  lemma PayloadIdentifies(a: Command, b: Command)
    ensures Payload(a) == Payload(b) <==>
      a.sender == b.sender && a.receiver == b.receiver && Cmp(a.amount, b.amount) == 0
  {
    hide UuidText, Printer.Print, Cmp;
    Canonical.PrintIsCanonical(a.amount, b.amount);
    if Payload(a) == Payload(b) {
      PayloadParts(a);
      PayloadParts(b);
      UuidTextInjective(a.sender, b.sender);
      UuidTextInjective(a.receiver, b.receiver);
    }
  }

  lemma PayloadParts(c: Command)
    ensures |Payload(c)| >= 86
    ensures Payload(c)[12..48] == UuidText(c.sender)
    ensures Payload(c)[49..85] == UuidText(c.receiver)
    ensures Payload(c)[86..] == Printer.Print(c.amount)
  {
    hide UuidText, Printer.Print;
    var s, r, m := UuidText(c.sender), UuidText(c.receiver), Printer.Print(c.amount);
    var head := TRANSFER_OPERATION_VERSION + NUL;
    assert |head| == 12;
    assert Payload(c) == head + s + NUL + r + NUL + m;
  }
}
