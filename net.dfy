/**
 * The part of Go's net package that config validation uses, restricted to
 * IPv4: addresses and masks as four bytes, net.ParseIP, net.ParseCIDR,
 * net.CIDRMask, IPNet.Contains, and the validator's own helpers cidrsEqual,
 * bytesEqual and cidrsOverlap.
 */
module Net {
  import opened Wrappers
  import opened Text

  /** Four bytes: an IPv4 address (Go's IP.To4()) or an IPv4 mask (Go's IPMask). */
  type Quad = s: seq<bv8> | |s| == 4 witness [0, 0, 0, 0]

  /** net.IPNet for IPv4: a network number and a mask. */
  datatype IPNet = IPNet(ip: Quad, mask: Quad)

  /**
   * One byte of net.CIDRMask when `ones` prefix bits remain to be placed:
   * 0xFF once eight or more remain, otherwise ^byte(0xff >> ones), written out.
   */
  function MaskByte(ones: int): bv8 {
    if ones >= 8 then 0xFF
    else if ones <= 0 then 0x00
    else if ones == 1 then 0x80
    else if ones == 2 then 0xC0
    else if ones == 3 then 0xE0
    else if ones == 4 then 0xF0
    else if ones == 5 then 0xF8
    else if ones == 6 then 0xFC
    else 0xFE
  }

  /** The table above is Go's ^byte(0xff >> n). */
  lemma MaskByteIsComplementedShift(n: nat)
    requires n < 8
    ensures MaskByte(n) == !((0xFF as bv8) >> n)
  {
    if n == 0 {
    } else if n == 1 {
    } else if n == 2 {
    } else if n == 3 {
    } else if n == 4 {
    } else if n == 5 {
    } else if n == 6 {
    } else {
      assert n == 7;
    }
  }

  /** net.CIDRMask(ones, 32) */
  function CIDRMask(ones: nat): Quad
    requires ones <= 32
  {
    [MaskByte(ones), MaskByte(ones - 8), MaskByte(ones - 16), MaskByte(ones - 24)]
  }

  /** Number of leading one bits of a mask byte that has the prefix shape. */
  function LeadingOnes(b: bv8): nat {
    if b == 0xFF then 8
    else if b == 0xFE then 7
    else if b == 0xFC then 6
    else if b == 0xF8 then 5
    else if b == 0xF0 then 4
    else if b == 0xE0 then 3
    else if b == 0xC0 then 2
    else if b == 0x80 then 1
    else 0
  }

  /** The prefix length a mask stands for (IPMask.Size for prefix masks). */
  function PrefixLength(m: Quad): nat {
    LeadingOnes(m[0]) + LeadingOnes(m[1]) + LeadingOnes(m[2]) + LeadingOnes(m[3])
  }

  /** A network whose mask is a prefix mask, as every net.ParseCIDR result is. */
  predicate IsCIDR(n: IPNet) {
    PrefixLength(n.mask) <= 32 && n.mask == CIDRMask(PrefixLength(n.mask))
  }

  lemma MaskByteOnes(ones: int)
    ensures LeadingOnes(MaskByte(ones)) == if ones <= 0 then 0 else if ones >= 8 then 8 else ones
  {
  }

  /** A CIDR mask remembers its prefix length, so two masks are byte-equal iff their lengths are. */
  lemma {:induction false} PrefixLengthOfMask(ones: nat)
    requires ones <= 32
    ensures PrefixLength(CIDRMask(ones)) == ones
    ensures IsCIDR(IPNet([0, 0, 0, 0], CIDRMask(ones)))
  {
    MaskByteOnes(ones);
    MaskByteOnes(ones - 8);
    MaskByteOnes(ones - 16);
    MaskByteOnes(ones - 24);
  }

  lemma MaskBytesNested(j: int, k: int)
    requires j <= k
    ensures MaskByte(j) & MaskByte(k) == MaskByte(j)
  {
  }

  /** IP.Mask: the address with the bits outside the mask cleared. */
  function ApplyMask(ip: Quad, m: Quad): Quad {
    [ip[0] & m[0], ip[1] & m[1], ip[2] & m[2], ip[3] & m[3]]
  }

  /** IPNet.Contains: the address agrees with the network number on every masked bit. */
  predicate Contains(n: IPNet, ip: Quad) {
    forall i :: 0 <= i < 4 ==> n.ip[i] & n.mask[i] == ip[i] & n.mask[i]
  }

  /** cidrsEqual: same network number and byte-equal masks. */
  predicate CidrsEqual(a: IPNet, b: IPNet) {
    a.ip == b.ip && a.mask == b.mask
  }

  /** For prefix networks, byte-equal masks mean equal prefix lengths. */
  lemma CidrsEqualIffSamePrefix(a: IPNet, b: IPNet)
    requires IsCIDR(a) && IsCIDR(b)
    ensures CidrsEqual(a, b) <==> a.ip == b.ip && PrefixLength(a.mask) == PrefixLength(b.mask)
  {
  }

  /** cidrsOverlap: either network contains the other's network number. */
  predicate CidrsOverlap(a: IPNet, b: IPNet) {
    Contains(a, b.ip) || Contains(b, a.ip)
  }

  /**
   * For prefix networks the cheap test of cidrsOverlap is exact: it holds iff
   * some address lies in both networks.
   */
  lemma OverlapIffSharedAddress(a: IPNet, b: IPNet)
    requires IsCIDR(a) && IsCIDR(b)
    ensures CidrsOverlap(a, b) <==> exists x: Quad :: Contains(a, x) && Contains(b, x)
  {
    if Contains(a, b.ip) {
      assert Contains(b, b.ip);
    } else if Contains(b, a.ip) {
      assert Contains(a, a.ip);
    } else if x: Quad :| Contains(a, x) && Contains(b, x) {
      var pa, pb := PrefixLength(a.mask), PrefixLength(b.mask);
      if pa <= pb {
        SharedAddressContains(a, b, x, pa, pb);
      } else {
        SharedAddressContains(b, a, x, pb, pa);
      }
    }
  }

  lemma SharedAddressContains(wide: IPNet, narrow: IPNet, x: Quad, p: nat, q: nat)
    requires p <= q <= 32
    requires wide.mask == CIDRMask(p) && narrow.mask == CIDRMask(q)
    requires Contains(wide, x) && Contains(narrow, x)
    ensures Contains(wide, narrow.ip)
  {
    MasksNested(p, q);
    forall i | 0 <= i < 4
      ensures wide.ip[i] & wide.mask[i] == narrow.ip[i] & wide.mask[i]
    {
      ByteInWiderMask(wide.mask[i], narrow.mask[i], wide.ip[i], narrow.ip[i], x[i]);
    }
  }

  /** A shorter prefix mask is contained, byte by byte, in a longer one. */
  lemma MasksNested(p: nat, q: nat)
    requires p <= q <= 32
    ensures forall i :: 0 <= i < 4 ==> CIDRMask(p)[i] & CIDRMask(q)[i] == CIDRMask(p)[i]
  {
    MaskBytesNested(p, q);
    MaskBytesNested(p - 8, q - 8);
    MaskBytesNested(p - 16, q - 16);
    MaskBytesNested(p - 24, q - 24);
  }

  /** One byte of the argument above: agreeing with x under the narrow mask implies agreeing under the wide one. */
  lemma ByteInWiderMask(w: bv8, m: bv8, a: bv8, n: bv8, x: bv8)
    requires w & m == w
    requires a & w == x & w && n & m == x & m
    ensures a & w == n & w
  {
  }

  /** Go's validator helper bytesEqual: equal lengths and equal bytes at every position. */
  method BytesEqual(a: seq<bv8>, b: seq<bv8>) returns (eq: bool)
    ensures eq <==> a == b
  {
    if |a| != |b| {
      return false;
    }
    var i := 0;
    while i < |a|
      invariant 0 <= i <= |a|
      invariant a[..i] == b[..i]
    {
      if a[i] != b[i] {
        return false;
      }
      i := i + 1;
    }
    assert a == a[..i] && b == b[..i];
    return true;
  }

  /** One field of a dotted IPv4 address: digits only, no leading zero, at most 255. */
  function ParseOctet(f: string): Option<bv8> {
    if f == [] || !AllDigits(f) || (|f| > 1 && f[0] == '0') then None
    else if DecimalValue(f) > 255 then None
    else Some(DecimalValue(f) as bv8)
  }

  /** net.ParseIP for dotted IPv4: exactly four valid fields separated by dots. */
  function ParseIPv4(s: string): Option<Quad> {
    var fields := Split(s, '.');
    if |fields| != 4 then None
    else match (ParseOctet(fields[0]), ParseOctet(fields[1]), ParseOctet(fields[2]), ParseOctet(fields[3]))
      case (Some(a), Some(b), Some(c), Some(d)) => Some([a, b, c, d])
      case _ => None
  }

  /** IP.String for an IPv4 address. */
  function FormatIPv4(ip: Quad): string {
    Join(Fields(ip), ".")
  }

  lemma OctetRoundTrip(b: bv8)
    ensures '.' !in NatToString(b as nat) && '/' !in NatToString(b as nat)
    ensures ParseOctet(NatToString(b as nat)) == Some(b)
  {
    var f := NatToString(b as nat);
    DecimalRoundTrip(b as nat);
    assert forall i :: 0 <= i < |f| ==> IsDigit(f[i]);
  }

  /** The four decimal fields of an address. */
  function Fields(ip: Quad): seq<string> {
    [NatToString(ip[0] as nat), NatToString(ip[1] as nat), NatToString(ip[2] as nat), NatToString(ip[3] as nat)]
  }

  /** Parsing the dotted form of an address gives the address back. */
  lemma IPv4RoundTrip(ip: Quad)
    ensures ParseIPv4(FormatIPv4(ip)) == Some(ip)
    ensures '/' !in FormatIPv4(ip)
  {
    SplitFormatted(ip);
    FieldsParse(ip);
    QuadBytes(ip);
    NoSlashFormatted(ip);
  }

  /** Each field parses back to its byte. */
  lemma FieldsParse(ip: Quad)
    ensures ParseOctet(Fields(ip)[0]) == Some(ip[0]) && ParseOctet(Fields(ip)[1]) == Some(ip[1])
    ensures ParseOctet(Fields(ip)[2]) == Some(ip[2]) && ParseOctet(Fields(ip)[3]) == Some(ip[3])
  {
    OctetRoundTrip(ip[0]);
    OctetRoundTrip(ip[1]);
    OctetRoundTrip(ip[2]);
    OctetRoundTrip(ip[3]);
  }

  lemma QuadBytes(ip: Quad)
    ensures [ip[0], ip[1], ip[2], ip[3]] == ip
  {
  }

  /** Splitting the dotted form at the dots gives back the four fields. */
  lemma SplitFormatted(ip: Quad)
    ensures Split(FormatIPv4(ip), '.') == Fields(ip)
  {
    var parts := Fields(ip);
    forall i | 0 <= i < 4 ensures '.' !in parts[i] {
      OctetRoundTrip(ip[i]);
    }
    SplitJoin(parts, '.');
  }

  lemma NoSlashFormatted(ip: Quad)
    ensures '/' !in FormatIPv4(ip)
  {
    var parts := Fields(ip);
    OctetRoundTrip(ip[0]);
    OctetRoundTrip(ip[1]);
    OctetRoundTrip(ip[2]);
    OctetRoundTrip(ip[3]);
    JoinFour(parts[0], parts[1], parts[2], parts[3], ".");
  }

  /**
   * net.ParseCIDR for IPv4: an address, a '/' (the first one), and a decimal
   * prefix length of at most 32; the result is the masked network.
   */
  function ParseCIDR(s: string): Option<IPNet> {
    match IndexOf(s, '/')
    case None => None
    case Some(i) =>
      var addr, bits := s[..i], s[i + 1..];
      match ParseIPv4(addr)
      case None => None
      case Some(ip) =>
        if bits == [] || !AllDigits(bits) || DecimalValue(bits) > 32 then None
        else
          var ones := DecimalValue(bits);
          Some(IPNet(ApplyMask(ip, CIDRMask(ones)), CIDRMask(ones)))
  }

  /** net.ParseCIDR yields a masked prefix network: the mask is a CIDR mask and the host bits are clear. */
  lemma ParseCIDRGivesPrefixNetwork(s: string)
    requires ParseCIDR(s).Some?
    ensures IsCIDR(ParseCIDR(s).value)
    ensures ApplyMask(ParseCIDR(s).value.ip, ParseCIDR(s).value.mask) == ParseCIDR(s).value.ip
  {
    var i := IndexOf(s, '/').value;
    var bits := s[i + 1..];
    PrefixLengthOfMask(DecimalValue(bits));
  }

  /** IPNet.String for an IPv4 prefix network. */
  function FormatCIDR(n: IPNet): string {
    FormatIPv4(n.ip) + "/" + NatToString(PrefixLength(n.mask))
  }

  /** Every masked prefix network survives a print and parse unchanged. */
  lemma CIDRRoundTrip(n: IPNet)
    requires IsCIDR(n) && ApplyMask(n.ip, n.mask) == n.ip
    ensures ParseCIDR(FormatCIDR(n)) == Some(n)
  {
    var a, bits := FormatIPv4(n.ip), NatToString(PrefixLength(n.mask));
    IPv4RoundTrip(n.ip);
    IndexOfJoin(a, '/', bits);
    var s := FormatCIDR(n);
    assert s == a + ['/'] + bits;
    assert s[..|a|] == a && s[|a| + 1..] == bits;
    DecimalRoundTrip(PrefixLength(n.mask));
  }

  lemma JoinFour(a: string, b: string, c: string, d: string, sep: string)
    ensures Join([a, b, c, d], sep) == a + sep + b + sep + c + sep + d
  {
    assert [c, d][1..] == [d];
    assert Join([c, d], sep) == c + sep + d;
    assert [b, c, d][1..] == [c, d];
    assert Join([b, c, d], sep) == b + sep + (c + sep + d);
    assert [a, b, c, d][1..] == [b, c, d];
  }

  /** net.ParseIP restricted to IPv4 literals. */
  function ParseIP(s: string): Option<Quad> {
    ParseIPv4(s)
  }
}
