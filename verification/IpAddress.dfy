/**
 IP addresses and networks, and which addresses count as public.

 An IPv4 address is its four octets and an IPv6 address its eight 16-bit groups. A network
 matches an address by its prefix, section 3.1 of RFC 4632.
 */
module IpAddress {
  import opened Common

  type Octets = o: seq<nat> | |o| == 4 && forall i :: 0 <= i < 4 ==> o[i] < 0x100 witness [0, 0, 0, 0]

  type Groups = g: seq<nat> | |g| == 8 && forall i :: 0 <= i < 8 ==> g[i] < 0x1_0000
    witness [0, 0, 0, 0, 0, 0, 0, 0]

  datatype Ip = V4(octets: Octets) | V6(groups: Groups)

  datatype Net = Net4(base4: Octets, prefix4: nat) | Net6(base6: Groups, prefix6: nat)

  /** The reading of address and network texts is a library. */
  datatype IpParsers = IpParsers(ip: string -> Option<Ip>, net: string -> Option<Net>)

  const LOOPBACK4: Ip := V4([127, 0, 0, 1])
  const LOOPBACK6: Ip := V6([0, 0, 0, 0, 0, 0, 0, 1])

  /** `x >> k` */
  function ShiftRight(x: nat, k: nat): nat {
    if k == 0 then x else ShiftRight(x / 2, k - 1)
  }

  /** Whole units of `width` bits first, then the leading bits of the next unit. */
  predicate SamePrefix(a: seq<nat>, b: seq<nat>, width: nat, prefix: nat) {
    if prefix == 0 then true
    else if a == [] || b == [] then false
    else if prefix >= width > 0 then a[0] == b[0] && SamePrefix(a[1..], b[1..], width, prefix - width)
    else if prefix >= width then false
    else ShiftRight(a[0], width - prefix) == ShiftRight(b[0], width - prefix)
  }

  predicate Contains(net: Net, ip: Ip) {
    match (net, ip)
    case (Net4(base, prefix), V4(o)) => SamePrefix(o, base, 8, prefix)
    case (Net6(base, prefix), V6(g)) => SamePrefix(g, base, 16, prefix)
    case _ => false
  }

  predicate MatchesAny(ip: Ip, nets: seq<Net>) {
    exists net :: net in nets && Contains(net, ip)
  }

  /** The networks that the resource policy keeps pages away from. */
  const BLOCKED_IPV4_NETS: seq<Net> := [
    Net4([0, 0, 0, 0], 8),
    Net4([10, 0, 0, 0], 8),
    Net4([100, 64, 0, 0], 10),
    Net4([127, 0, 0, 0], 8),
    Net4([169, 254, 0, 0], 16),
    Net4([172, 16, 0, 0], 12),
    Net4([192, 0, 0, 0], 24),
    Net4([192, 0, 2, 0], 24),
    Net4([192, 88, 99, 0], 24),
    Net4([192, 168, 0, 0], 16),
    Net4([198, 18, 0, 0], 15),
    Net4([198, 51, 100, 0], 24),
    Net4([203, 0, 113, 0], 24),
    Net4([224, 0, 0, 0], 4),
    Net4([240, 0, 0, 0], 4)
  ]

  const BLOCKED_IPV6_NETS: seq<Net> := [
    Net6([0x100, 0, 0, 0, 0, 0, 0, 0], 64),
    Net6([0x2001, 0xdb8, 0, 0, 0, 0, 0, 0], 32),
    Net6([0xfc00, 0, 0, 0, 0, 0, 0, 0], 7),
    Net6([0xfec0, 0, 0, 0, 0, 0, 0, 0], 10)
  ]

  predicate IsLoopback(ip: Ip) {
    match ip
    case V4(o) => o[0] == 127
    case V6(_) => ip == LOOPBACK6
  }

  predicate IsIpv4Mapped(g: Groups) {
    g[..6] == [0, 0, 0, 0, 0, 0xffff]
  }

  predicate IsMulticast6(g: Groups) {
    g[0] / 0x100 == 0xff
  }

  predicate IsUnicastLinkLocal(g: Groups) {
    g[0] / 0x40 * 0x40 == 0xfe80
  }

  predicate IsPublic(ip: Ip) {
    match ip
    case V4(_) => !MatchesAny(ip, BLOCKED_IPV4_NETS)
    case V6(g) =>
      && !IsIpv4Mapped(g)
      && ip != LOOPBACK6
      && g != [0, 0, 0, 0, 0, 0, 0, 0]
      && !IsMulticast6(g)
      && !IsUnicastLinkLocal(g)
      && !MatchesAny(ip, BLOCKED_IPV6_NETS)
  }

  // ----- Prefix matching is agreement of the first bits -----

  function UnitBits(x: nat, width: nat): (bits: seq<bool>)
    ensures |bits| == width
  {
    if width == 0 then [] else UnitBits(x / 2, width - 1) + [x % 2 == 1]
  }

  function Bits(units: seq<nat>, width: nat): (bits: seq<bool>)
    ensures |bits| == |units| * width
  {
    if units == [] then [] else UnitBits(units[0], width) + Bits(units[1..], width)
  }

  predicate Fits(x: nat, width: nat) {
    ShiftRight(x, width) == 0
  }

  lemma {:induction false} LeadingBits(x: nat, width: nat, dropped: nat)
    requires dropped <= width
    ensures UnitBits(x, width)[..width - dropped] == UnitBits(ShiftRight(x, dropped), width - dropped)
    decreases dropped
  {
    if dropped > 0 {
      LeadingBits(x / 2, width - 1, dropped - 1);
      assert UnitBits(x, width)[..width - dropped] == UnitBits(x / 2, width - 1)[..width - dropped];
    }
  }

  lemma {:induction false} BitsAreFaithful(x: nat, y: nat, width: nat)
    requires Fits(x, width) && Fits(y, width)
    requires UnitBits(x, width) == UnitBits(y, width)
    ensures x == y
  {
    if width > 0 {
      var a, b := UnitBits(x, width), UnitBits(y, width);
      assert a[..width - 1] == UnitBits(x / 2, width - 1) && b[..width - 1] == UnitBits(y / 2, width - 1);
      assert a[width - 1] == b[width - 1];
      BitsAreFaithful(x / 2, y / 2, width - 1);
    }
  }

  lemma {:induction false} ShiftTwice(x: nat, j: nat, k: nat)
    ensures ShiftRight(ShiftRight(x, j), k) == ShiftRight(x, j + k)
    decreases j
  {
    if j > 0 {
      ShiftTwice(x / 2, j - 1, k);
    }
  }

  lemma UnitPrefix(x: nat, y: nat, width: nat, prefix: nat)
    requires prefix <= width && Fits(x, width) && Fits(y, width)
    ensures UnitBits(x, width)[..prefix] == UnitBits(y, width)[..prefix]
            <==> ShiftRight(x, width - prefix) == ShiftRight(y, width - prefix)
  {
    LeadingBits(x, width, width - prefix);
    LeadingBits(y, width, width - prefix);
    ShiftTwice(x, width - prefix, prefix);
    ShiftTwice(y, width - prefix, prefix);
    if UnitBits(x, width)[..prefix] == UnitBits(y, width)[..prefix] {
      BitsAreFaithful(ShiftRight(x, width - prefix), ShiftRight(y, width - prefix), prefix);
    }
  }

  /** Matching a network is agreement of the first `prefix` bits of the whole address. */
  lemma {:induction false} PrefixIsFirstBits(a: seq<nat>, b: seq<nat>, width: nat, prefix: nat)
    requires |a| == |b| && width > 0 && prefix <= |a| * width
    requires forall i :: 0 <= i < |a| ==> Fits(a[i], width) && Fits(b[i], width)
    ensures SamePrefix(a, b, width, prefix) <==> Bits(a, width)[..prefix] == Bits(b, width)[..prefix]
    decreases |a|
  {
    hide ShiftRight, UnitBits;
    if prefix >= width {
      PrefixIsFirstBits(a[1..], b[1..], width, prefix - width);
      SplitPrefix(UnitBits(a[0], width), Bits(a[1..], width), prefix);
      SplitPrefix(UnitBits(b[0], width), Bits(b[1..], width), prefix);
      if UnitBits(a[0], width) == UnitBits(b[0], width) {
        BitsAreFaithful(a[0], b[0], width);
      }
    } else if prefix > 0 {
      UnitPrefix(a[0], b[0], width, prefix);
      ShortPrefix(UnitBits(a[0], width), Bits(a[1..], width), prefix);
      ShortPrefix(UnitBits(b[0], width), Bits(b[1..], width), prefix);
    }
  }

  lemma ShortPrefix(x: seq<bool>, rest: seq<bool>, prefix: nat)
    requires prefix <= |x|
    ensures (x + rest)[..prefix] == x[..prefix]
  {
  }

  lemma SplitPrefix(x: seq<bool>, rest: seq<bool>, prefix: nat)
    requires |x| <= prefix <= |x| + |rest|
    ensures (x + rest)[..prefix] == x + rest[..prefix - |x|]
    ensures (x + rest)[..prefix][..|x|] == x && (x + rest)[..prefix][|x|..] == rest[..prefix - |x|]
  {
  }

  // ----- What the tables mean -----

  /** The blocked IPv4 addresses, octet by octet. */
  predicate BlockedOctets(o: Octets) {
    || o[0] == 0 || o[0] == 10 || o[0] == 127
    || (o[0] == 100 && 64 <= o[1] < 128)
    || (o[0] == 169 && o[1] == 254)
    || (o[0] == 172 && 16 <= o[1] < 32)
    || (o[0] == 192 && o[1] == 0 && (o[2] == 0 || o[2] == 2))
    || (o[0] == 192 && o[1] == 88 && o[2] == 99)
    || (o[0] == 192 && o[1] == 168)
    || (o[0] == 198 && 18 <= o[1] < 20)
    || (o[0] == 198 && o[1] == 51 && o[2] == 100)
    || (o[0] == 203 && o[1] == 0 && o[2] == 113)
    || o[0] >= 224
  }

  lemma FirstUnits(a: seq<nat>, whole: nat)
    requires 0 < whole < |a|
    ensures a[..whole] == [a[0]] + a[1..][..whole - 1] && a[1..][whole - 1] == a[whole]
  {
  }

  /** A network of `whole` units and some further bits, unit by unit. */
  lemma {:induction false} PrefixByUnit(a: seq<nat>, b: seq<nat>, width: nat, whole: nat, bits: nat)
    requires |a| == |b| && whole < |a| && bits < width
    requires Fits(a[whole], width) && Fits(b[whole], width)
    ensures SamePrefix(a, b, width, whole * width + bits)
            <==> a[..whole] == b[..whole] && ShiftRight(a[whole], width - bits) == ShiftRight(b[whole], width - bits)
    decreases whole
  {
    hide ShiftRight;
    if whole > 0 {
      NextUnit(whole, width, bits);
      FirstUnits(a, whole);
      FirstUnits(b, whole);
      PrefixByUnit(a[1..], b[1..], width, whole - 1, bits);
      SameFirst(a[0], b[0], a[1..][..whole - 1], b[1..][..whole - 1]);
    }
  }

  lemma NextUnit(whole: nat, width: nat, bits: nat)
    requires whole > 0
    ensures whole * width + bits >= width && whole * width + bits - width == (whole - 1) * width + bits
  {
  }

  lemma SameFirst(x: nat, y: nat, a: seq<nat>, b: seq<nat>)
    ensures [x] + a == [y] + b <==> x == y && a == b
  {
    if [x] + a == [y] + b {
      assert ([x] + a)[0] == x && ([y] + b)[0] == y;
      assert ([x] + a)[1..] == a && ([y] + b)[1..] == b;
    }
  }

  lemma Shifts(x: nat)
    ensures ShiftRight(x, 1) == x / 2 && ShiftRight(x, 4) == x / 16 && ShiftRight(x, 6) == x / 64
    ensures ShiftRight(x, 8) == x / 256 && ShiftRight(x, 9) == x / 512
  {
    hide ShiftRight;
    ShiftThree(x);
    ShiftThree(x / 8);
    ShiftThree(x / 64);
    ShiftTwice(x, 3, 1);
    ShiftTwice(x, 3, 3);
    ShiftTwice(x, 6, 2);
    ShiftTwice(x, 6, 3);
  }

  lemma ShiftThree(x: nat)
    ensures ShiftRight(x, 1) == x / 2 && ShiftRight(x, 2) == x / 4 && ShiftRight(x, 3) == x / 8
  {
    assert ShiftRight(x, 3) == ShiftRight(x / 2, 2) == ShiftRight(x / 2 / 2, 1);
  }

  function Pow2(n: nat): nat {
    if n == 0 then 1 else 2 * Pow2(n - 1)
  }

  lemma {:induction false} SmallFits(x: nat, width: nat)
    requires x < Pow2(width)
    ensures Fits(x, width)
  {
    if width > 0 {
      SmallFits(x / 2, width - 1);
    }
  }

  lemma GroupFits(x: nat)
    requires x < 0x1_0000
    ensures Fits(x, 16)
  {
    Shifts(x);
    SmallFits(x / 0x100, 8);
    ShiftTwice(x, 8, 8);
  }

  lemma Slash8(o: Octets, m: nat)
    requires m < 256
    ensures Contains(Net4([m, 0, 0, 0], 8), V4(o)) <==> o[0] == m
  {
    hide ShiftRight, SamePrefix;
    SmallFits(o[1], 8);
    SmallFits(0, 8);
    PrefixByUnit(o, [m, 0, 0, 0], 8, 1, 0);
  }

  lemma Slash16(o: Octets, m: nat, n: nat)
    requires m < 256 && n < 256
    ensures Contains(Net4([m, n, 0, 0], 16), V4(o)) <==> o[0] == m && o[1] == n
  {
    hide ShiftRight, SamePrefix;
    SmallFits(o[2], 8);
    SmallFits(0, 8);
    PrefixByUnit(o, [m, n, 0, 0], 8, 2, 0);
  }

  lemma Slash24(o: Octets, m: nat, n: nat, p: nat)
    requires m < 256 && n < 256 && p < 256
    ensures Contains(Net4([m, n, p, 0], 24), V4(o)) <==> o[0] == m && o[1] == n && o[2] == p
  {
    hide ShiftRight, SamePrefix;
    SmallFits(o[3], 8);
    SmallFits(0, 8);
    PrefixByUnit(o, [m, n, p, 0], 8, 3, 0);
  }

  lemma SlashUnder8(o: Octets, m: nat, bits: nat)
    requires m < 256 && 0 < bits < 8
    ensures Contains(Net4([m, 0, 0, 0], bits), V4(o)) <==> ShiftRight(o[0], 8 - bits) == ShiftRight(m, 8 - bits)
  {
    hide ShiftRight, SamePrefix;
    SmallFits(o[0], 8);
    SmallFits(m, 8);
    PrefixByUnit(o, [m, 0, 0, 0], 8, 0, bits);
  }

  lemma SlashUnder16(o: Octets, m: nat, n: nat, bits: nat)
    requires m < 256 && n < 256 && bits < 8
    ensures Contains(Net4([m, n, 0, 0], 8 + bits), V4(o))
            <==> o[0] == m && ShiftRight(o[1], 8 - bits) == ShiftRight(n, 8 - bits)
  {
    hide ShiftRight, SamePrefix;
    SmallFits(o[1], 8);
    SmallFits(n, 8);
    PrefixByUnit(o, [m, n, 0, 0], 8, 1, bits);
  }

  lemma PublicIpv4ByOctets(o: Octets)
    ensures IsPublic(V4(o)) <==> !BlockedOctets(o)
  {
    hide ShiftRight, SamePrefix, Contains;
    Slash8(o, 0);
    Slash8(o, 10);
    SlashUnder16(o, 100, 64, 2);
    Slash8(o, 127);
    Slash16(o, 169, 254);
    SlashUnder16(o, 172, 16, 4);
    Slash24(o, 192, 0, 0);
    Slash24(o, 192, 0, 2);
    Slash24(o, 192, 88, 99);
    Slash16(o, 192, 168);
    SlashUnder16(o, 198, 18, 7);
    Slash24(o, 198, 51, 100);
    Slash24(o, 203, 0, 113);
    SlashUnder8(o, 224, 4);
    SlashUnder8(o, 240, 4);
    Shifts(o[0]);
    Shifts(o[1]);
    Shifts(64);
    Shifts(16);
    Shifts(18);
    Shifts(224);
    Shifts(240);
    MatchesFifteen(V4(o), BLOCKED_IPV4_NETS);
  }

  lemma MatchesFifteen(ip: Ip, nets: seq<Net>)
    requires |nets| == 15
    ensures MatchesAny(ip, nets) <==>
      Contains(nets[0], ip) || Contains(nets[1], ip) || Contains(nets[2], ip) || Contains(nets[3], ip)
      || Contains(nets[4], ip) || Contains(nets[5], ip) || Contains(nets[6], ip) || Contains(nets[7], ip)
      || Contains(nets[8], ip) || Contains(nets[9], ip) || Contains(nets[10], ip) || Contains(nets[11], ip)
      || Contains(nets[12], ip) || Contains(nets[13], ip) || Contains(nets[14], ip)
  {
    hide Contains;
  }

  /** The blocked IPv6 addresses, group by group. */
  predicate BlockedGroups(g: Groups) {
    || (g[..7] == [0, 0, 0, 0, 0, 0, 0] && g[7] <= 1)
    || g[..6] == [0, 0, 0, 0, 0, 0xffff]
    || 0xfc00 <= g[0] < 0xfe00
    || 0xfe80 <= g[0] < 0xff00
    || g[0] >= 0xff00
    || g[..4] == [0x100, 0, 0, 0]
    || g[..2] == [0x2001, 0xdb8]
  }

  lemma PublicIpv6ByGroups(g: Groups)
    ensures IsPublic(V6(g)) <==> !BlockedGroups(g)
  {
    hide ShiftRight, SamePrefix, Contains;
    TableIpv6(g);
    assert g == g[..7] + [g[7]];
    MatchesFour(V6(g), BLOCKED_IPV6_NETS);
  }

  /** The networks of the IPv6 table, one by one. */
  lemma TableIpv6(g: Groups)
    ensures Contains(BLOCKED_IPV6_NETS[0], V6(g)) <==> g[..4] == [0x100, 0, 0, 0]
    ensures Contains(BLOCKED_IPV6_NETS[1], V6(g)) <==> g[..2] == [0x2001, 0xdb8]
    ensures Contains(BLOCKED_IPV6_NETS[2], V6(g)) <==> 0xfc00 <= g[0] < 0xfe00
    ensures Contains(BLOCKED_IPV6_NETS[3], V6(g)) <==> 0xfec0 <= g[0] < 0xff00
  {
    hide ShiftRight, SamePrefix, Contains;
    UniqueLocal(g);
    SiteLocal(g);
    SlashWhole(g, [0x100, 0, 0, 0, 0, 0, 0, 0], 4);
    SlashWhole(g, [0x2001, 0xdb8, 0, 0, 0, 0, 0, 0], 2);
    assert [0x100, 0, 0, 0, 0, 0, 0, 0][..4] == [0x100, 0, 0, 0];
    assert [0x2001, 0xdb8, 0, 0, 0, 0, 0, 0][..2] == [0x2001, 0xdb8];
  }

  lemma UniqueLocal(g: Groups)
    ensures Contains(Net6([0xfc00, 0, 0, 0, 0, 0, 0, 0], 7), V6(g)) <==> 0xfc00 <= g[0] < 0xfe00
  {
    hide ShiftRight, SamePrefix, Contains;
    SlashUnder16Bits(g, [0xfc00, 0, 0, 0, 0, 0, 0, 0], 7);
    Shifts(g[0]);
    Shifts(0xfc00);
  }

  lemma SiteLocal(g: Groups)
    ensures Contains(Net6([0xfec0, 0, 0, 0, 0, 0, 0, 0], 10), V6(g)) <==> 0xfec0 <= g[0] < 0xff00
  {
    hide ShiftRight, SamePrefix, Contains;
    SlashUnder16Bits(g, [0xfec0, 0, 0, 0, 0, 0, 0, 0], 10);
    Shifts(g[0]);
    Shifts(0xfec0);
  }

  lemma SlashUnder16Bits(g: Groups, base: Groups, bits: nat)
    requires 0 < bits < 16
    ensures Contains(Net6(base, bits), V6(g)) <==> ShiftRight(g[0], 16 - bits) == ShiftRight(base[0], 16 - bits)
  {
    hide ShiftRight, SamePrefix;
    GroupFits(g[0]);
    GroupFits(base[0]);
    PrefixByUnit(g, base, 16, 0, bits);
  }

  lemma SlashWhole(g: Groups, base: Groups, whole: nat)
    requires whole < 8
    ensures Contains(Net6(base, whole * 16), V6(g)) <==> g[..whole] == base[..whole]
  {
    hide ShiftRight, SamePrefix;
    GroupFits(g[whole]);
    GroupFits(base[whole]);
    PrefixByUnit(g, base, 16, whole, 0);
  }

  lemma MatchesFour(ip: Ip, nets: seq<Net>)
    requires |nets| == 4
    ensures MatchesAny(ip, nets) <==>
      Contains(nets[0], ip) || Contains(nets[1], ip) || Contains(nets[2], ip) || Contains(nets[3], ip)
  {
    hide Contains;
  }

  /** No loopback address is public. */
  lemma LoopbackIsNotPublic(ip: Ip)
    requires IsLoopback(ip)
    ensures !IsPublic(ip)
  {
    match ip
    case V4(o) => PublicIpv4ByOctets(o);
    case V6(g) => PublicIpv6ByGroups(g);
  }
}
