// Which destination addresses outgoing connections may not use: IPv4 addresses, IPv6 addresses, and
// IPv4 addresses that travel inside IPv6 ones.
module Egress {
  import opened Prelude

  type IP = seq<bv8>

  const MAPPED: IP := [0, 0, 0, 0, 0, 0, 0, 0, 0, 0, 0xff, 0xff]
  const NAT64: IP := [0x00, 0x64, 0xff, 0x9b, 0, 0, 0, 0, 0, 0, 0, 0]
  const COMPATIBLE: IP := [0, 0, 0, 0, 0, 0, 0, 0, 0, 0, 0, 0]
  const LOOPBACK6: IP := [0, 0, 0, 0, 0, 0, 0, 0, 0, 0, 0, 0, 0, 0, 0, 1]
  const UNSPECIFIED6: IP := [0, 0, 0, 0, 0, 0, 0, 0, 0, 0, 0, 0, 0, 0, 0, 0]

  // ---- addresses as the network library reads them: 4 or 16 bytes ----

  predicate IsZero(b: IP) {
    forall i :: 0 <= i < |b| ==> b[i] == 0
  }

  function To4(ip: IP): Option<IP> {
    if |ip| == 4 then Some(ip)
    else if |ip| == 16 && IsZero(ip[..10]) && ip[10] == 0xff && ip[11] == 0xff then Some(ip[12..])
    else None
  }

  function To16(ip: IP): Option<IP> {
    if |ip| == 4 then Some(MAPPED + ip) else if |ip| == 16 then Some(ip) else None
  }

  function IPv4(a: bv8, b: bv8, c: bv8, d: bv8): IP { MAPPED + [a, b, c, d] }

  predicate IsUnspecified(ip: IP) {
    match To4(ip)
    case Some(v4) => |v4| == 4 && IsZero(v4)
    case None => ip == UNSPECIFIED6
  }

  predicate IsLoopback(ip: IP) {
    match To4(ip)
    case Some(v4) => |v4| == 4 && v4[0] == 127
    case None => ip == LOOPBACK6
  }

  predicate IsPrivate(ip: IP) {
    match To4(ip)
    case Some(v4) => |v4| == 4
        && (v4[0] == 10 || (v4[0] == 172 && v4[1] & 0xf0 == 16) || (v4[0] == 192 && v4[1] == 168))
    case None => |ip| == 16 && ip[0] & 0xfe == 0xfc
  }

  predicate IsLinkLocalUnicast(ip: IP) {
    match To4(ip)
    case Some(v4) => |v4| == 4 && v4[0] == 169 && v4[1] == 254
    case None => |ip| == 16 && ip[0] == 0xfe && ip[1] & 0xc0 == 0x80
  }

  predicate IsLinkLocalMulticast(ip: IP) {
    match To4(ip)
    case Some(v4) => |v4| == 4 && v4[0] == 224 && v4[1] == 0 && v4[2] == 0
    case None => |ip| == 16 && ip[0] == 0xff && ip[1] & 0x0f == 0x02
  }

  predicate IsInterfaceLocalMulticast(ip: IP) {
    |ip| == 16 && ip[0] == 0xff && ip[1] & 0x0f == 0x01
  }

  predicate IsMulticast(ip: IP) {
    match To4(ip)
    case Some(v4) => |v4| == 4 && v4[0] & 0xf0 == 0xe0
    case None => |ip| == 16 && ip[0] == 0xff
  }

  // ---- the policy ----

  predicate IsCGNAT(ip: IP) {
    match To4(ip)
    case Some(v4) => |v4| == 4 && v4[0] == 100 && v4[1] >= 64 && v4[1] <= 127
    case None => false
  }

  function EmbeddedIPv4(ip: IP): Option<IP> {
    match To16(ip)
    case None => None
    case Some(v16) =>
      if |v16| != 16 || To4(ip).Some? then None
      else if v16[..4] == [0x00, 0x64, 0xff, 0x9b] && IsZero(v16[4..12]) then
        Some(IPv4(v16[12], v16[13], v16[14], v16[15]))
      else if IsZero(v16[..12]) && (v16[12] != 0 || v16[13] != 0) then Some(IPv4(v16[12], v16[13], v16[14], v16[15]))
      else None
  }

  function Normalised(ip: IP): IP {
    match To4(ip) case Some(v4) => v4 case None => ip
  }

  predicate IsSpecial(ip: IP) {
    || IsLoopback(ip) || IsPrivate(ip) || IsUnspecified(ip)
    || IsLinkLocalUnicast(ip) || IsLinkLocalMulticast(ip)
    || IsInterfaceLocalMulticast(ip) || IsMulticast(ip)
  }

  predicate IsBlocked(ip: IP)
    decreases if EmbeddedIPv4(Normalised(ip)).Some? then 1 else 0
  {
    match EmbeddedIPv4(Normalised(ip))
    case Some(v4) =>
      UnwrapsOnce(ip);
      IsBlocked(v4)
    case None => IsSpecial(Normalised(ip)) || IsCGNAT(Normalised(ip))
  }

  lemma MappedUnfolds(a: bv8, b: bv8, c: bv8, d: bv8)
    ensures To4(IPv4(a, b, c, d)) == Some([a, b, c, d])
  {
    var ip := IPv4(a, b, c, d);
    assert ip[..10] == MAPPED[..10] && IsZero(MAPPED[..10]) && ip[12..] == [a, b, c, d];
  }

  // An embedded address is never itself a carrier: one unwrapping is all there is.
  lemma UnwrapsOnce(ip: IP)
    ensures match EmbeddedIPv4(Normalised(ip)) case Some(v4) => EmbeddedIPv4(Normalised(v4)) == None case None => true
  {
    if EmbeddedIPv4(Normalised(ip)).Some? {
      var v16 := To16(Normalised(ip)).value;
      MappedUnfolds(v16[12], v16[13], v16[14], v16[15]);
    }
  }

  // ---- what is blocked, as address blocks ----

  function Word(a: bv8, b: bv8, c: bv8, d: bv8): bv32 {
    ((a as bv32) << 24) | ((b as bv32) << 16) | ((c as bv32) << 8) | (d as bv32)
  }

  // The IPv4 address lies in one of the blocks 0.0.0.0/32, 10.0.0.0/8, 100.64.0.0/10, 127.0.0.0/8,
  // 169.254.0.0/16, 172.16.0.0/12, 192.168.0.0/16, 224.0.0.0/4.
  predicate InBlockedRange(w: bv32) {
    || w == 0x0000_0000
    || w & 0xff00_0000 == 0x0a00_0000
    || w & 0xffc0_0000 == 0x6440_0000
    || w & 0xff00_0000 == 0x7f00_0000
    || w & 0xffff_0000 == 0xa9fe_0000
    || w & 0xfff0_0000 == 0xac10_0000
    || w & 0xffff_0000 == 0xc0a8_0000
    || w & 0xf000_0000 == 0xe000_0000
  }

  predicate BytesBlocked(a: bv8, b: bv8, c: bv8, d: bv8) {
    || a == 127 || a == 10 || (a == 172 && b & 0xf0 == 16) || (a == 192 && b == 168)
    || (a == 0 && b == 0 && c == 0 && d == 0)
    || (a == 169 && b == 254) || (a == 224 && b == 0 && c == 0) || a & 0xf0 == 0xe0
    || (a == 100 && b >= 64 && b <= 127)
  }

  lemma BytesAreRanges(a: bv8, b: bv8, c: bv8, d: bv8)
    ensures BytesBlocked(a, b, c, d) <==> InBlockedRange(Word(a, b, c, d))
  {
  }

  // The byte test for carrier-grade NAT is the mask test for 100.64.0.0/10.
  lemma CGNATIsMask(a: bv8, b: bv8, c: bv8, d: bv8)
    ensures IsCGNAT([a, b, c, d]) <==> Word(a, b, c, d) & 0xffc0_0000 == 0x6440_0000
  {
  }

  lemma PlainUnspecified(a: bv8, b: bv8, c: bv8, d: bv8)
    ensures IsUnspecified([a, b, c, d]) <==> a == 0 && b == 0 && c == 0 && d == 0
  {
    var ip := [a, b, c, d];
    assert ip[0] == a && ip[1] == b && ip[2] == c && ip[3] == d;
  }

  lemma PlainLoopback(a: bv8, b: bv8, c: bv8, d: bv8)
    ensures IsLoopback([a, b, c, d]) <==> a == 127
  {
  }

  lemma PlainPrivate(a: bv8, b: bv8, c: bv8, d: bv8)
    ensures IsPrivate([a, b, c, d]) <==> a == 10 || (a == 172 && b & 0xf0 == 16) || (a == 192 && b == 168)
  {
  }

  lemma PlainLinkLocal(a: bv8, b: bv8, c: bv8, d: bv8)
    ensures IsLinkLocalUnicast([a, b, c, d]) <==> a == 169 && b == 254
  {
  }

  lemma PlainMulticast(a: bv8, b: bv8, c: bv8, d: bv8)
    ensures IsMulticast([a, b, c, d]) <==> a & 0xf0 == 0xe0
    ensures IsLinkLocalMulticast([a, b, c, d]) <==> a == 224 && b == 0 && c == 0
    ensures !IsInterfaceLocalMulticast([a, b, c, d])
  {
  }

  lemma PlainCGNAT(a: bv8, b: bv8, c: bv8, d: bv8)
    ensures IsCGNAT([a, b, c, d]) <==> a == 100 && b >= 64 && b <= 127
  {
  }

  lemma PlainSpecial(a: bv8, b: bv8, c: bv8, d: bv8)
    ensures IsSpecial([a, b, c, d]) || IsCGNAT([a, b, c, d]) <==> BytesBlocked(a, b, c, d)
  {
    PlainUnspecified(a, b, c, d);
    PlainLoopback(a, b, c, d);
    PlainPrivate(a, b, c, d);
    PlainLinkLocal(a, b, c, d);
    PlainMulticast(a, b, c, d);
    PlainCGNAT(a, b, c, d);
  }

  lemma PlainBlocked(a: bv8, b: bv8, c: bv8, d: bv8)
    ensures IsBlocked([a, b, c, d]) <==> InBlockedRange(Word(a, b, c, d))
  {
    PlainIsItself([a, b, c, d]);
    PlainSpecial(a, b, c, d);
    BytesAreRanges(a, b, c, d);
  }

  lemma PlainIsItself(ip: IP)
    requires |ip| == 4
    ensures EmbeddedIPv4(ip) == None && Normalised(ip) == ip
    ensures IsBlocked(ip) <==> IsSpecial(ip) || IsCGNAT(ip)
  {
  }

  // ---- the forms an IPv4 address travels in ----

  lemma MappedBlocked(a: bv8, b: bv8, c: bv8, d: bv8)
    ensures IsBlocked(MAPPED + [a, b, c, d]) <==> IsBlocked([a, b, c, d])
  {
    MappedUnfolds(a, b, c, d);
    assert EmbeddedIPv4([a, b, c, d]) == None;
  }

  lemma NAT64Embeds(a: bv8, b: bv8, c: bv8, d: bv8)
    ensures var ip := NAT64 + [a, b, c, d];
            To4(ip) == None && EmbeddedIPv4(ip) == Some(IPv4(a, b, c, d))
  {
    var ip := NAT64 + [a, b, c, d];
    assert ip[..10][1] == 0x64;
    assert ip[..4] == NAT64[..4] == [0x00, 0x64, 0xff, 0x9b];
    assert ip[4..12] == NAT64[4..12] && IsZero(NAT64[4..12]);
  }

  lemma CompatibleEmbeds(a: bv8, b: bv8, c: bv8, d: bv8)
    ensures var ip := COMPATIBLE + [a, b, c, d];
            && To4(ip) == None
            && EmbeddedIPv4(ip) == if a == 0 && b == 0 then None else Some(IPv4(a, b, c, d))
  {
    var ip := COMPATIBLE + [a, b, c, d];
    assert ip[10] == 0 && ip[..4][1] == 0;
    assert ip[..12] == COMPATIBLE && IsZero(COMPATIBLE);
  }

  // The verdict does not depend on whether an IPv4 address comes plain, mapped or through NAT64.
  lemma SameVerdictInEveryForm(a: bv8, b: bv8, c: bv8, d: bv8)
    ensures IsBlocked(MAPPED + [a, b, c, d]) <==> IsBlocked([a, b, c, d])
    ensures IsBlocked(NAT64 + [a, b, c, d]) <==> IsBlocked([a, b, c, d])
  {
    MappedBlocked(a, b, c, d);
    NAT64Embeds(a, b, c, d);
  }

  lemma NotEmbeddedIsSpecial(ip: IP)
    requires |ip| == 16 && To4(ip) == None && EmbeddedIPv4(ip) == None
    ensures IsBlocked(ip) <==> ip == LOOPBACK6 || ip == UNSPECIFIED6 || ip[0] & 0xfe == 0xfc
                               || (ip[0] == 0xfe && ip[1] & 0xc0 == 0x80) || ip[0] == 0xff
  {
  }

  // In the deprecated compatible form the verdict is the same for every address but 0.0.0.1, which
  // then is the IPv6 loopback address.
  lemma CompatibleVerdict(a: bv8, b: bv8, c: bv8, d: bv8)
    ensures (IsBlocked(COMPATIBLE + [a, b, c, d]) <==> IsBlocked([a, b, c, d]))
       <==> !(a == 0 && b == 0 && c == 0 && d == 1)
  {
    var ip := COMPATIBLE + [a, b, c, d];
    CompatibleEmbeds(a, b, c, d);
    PlainBlocked(a, b, c, d);
    BytesAreRanges(a, b, c, d);
    if a == 0 && b == 0 {
      NotEmbeddedIsSpecial(ip);
      CompatibleSpecial(c, d);
    } else {
      MappedBlocked(a, b, c, d);
    }
  }

  lemma CompatibleSpecial(c: bv8, d: bv8)
    ensures var ip := COMPATIBLE + [0, 0, c, d];
            && (ip == LOOPBACK6 <==> c == 0 && d == 1) && (ip == UNSPECIFIED6 <==> c == 0 && d == 0) && ip[0] == 0
  {
    var ip := COMPATIBLE + [0, 0, c, d];
    assert ip[14] == c && ip[15] == d;
    if c == 0 && d == 1 { assert ip == LOOPBACK6; }
    if c == 0 && d == 0 { assert ip == UNSPECIFIED6; }
  }

  lemma MappedVerdict(ip: IP)
    requires |ip| == 16 && To4(ip).Some?
    ensures IsBlocked(ip) <==> IsBlocked([ip[12], ip[13], ip[14], ip[15]])
  {
    var v4 := [ip[12], ip[13], ip[14], ip[15]];
    assert ip[12..] == v4;
    PlainIsItself(v4);
  }

  lemma EmbeddedVerdict(ip: IP)
    requires |ip| == 16 && To4(ip) == None && EmbeddedIPv4(ip).Some?
    ensures IsBlocked(ip) <==> IsBlocked([ip[12], ip[13], ip[14], ip[15]])
  {
    MappedBlocked(ip[12], ip[13], ip[14], ip[15]);
  }

  // An IPv4 address travels behind ::ffff:0:0/96, behind 64:ff9b::/96, and behind ::/96 unless it begins
  // with 0.0.
  predicate Carries(ip: IP)
    requires |ip| == 16
  {
    ip[..12] == MAPPED || ip[..12] == NAT64 || (ip[..12] == COMPATIBLE && !(ip[12] == 0 && ip[13] == 0))
  }

  lemma CarriesExactly(ip: IP)
    requires |ip| == 16
    ensures To4(ip).Some? || EmbeddedIPv4(ip).Some? <==> Carries(ip)
  {
    var rest := [ip[12], ip[13], ip[14], ip[15]];
    assert ip == ip[..12] + rest;
    MappedUnfolds(ip[12], ip[13], ip[14], ip[15]);
    NAT64Embeds(ip[12], ip[13], ip[14], ip[15]);
    CompatibleEmbeds(ip[12], ip[13], ip[14], ip[15]);
    if To4(ip).Some? {
      assert forall i :: 0 <= i < 10 ==> ip[i] == ip[..10][i];
      assert ip[..12] == MAPPED;
    } else if EmbeddedIPv4(ip).Some? {
      StartsNAT64(ip);
      if IsZero(ip[..12]) { assert ip[..12] == COMPATIBLE; }
    }
  }

  lemma StartsNAT64(ip: IP)
    requires |ip| == 16
    ensures ip[..4] == [0x00, 0x64, 0xff, 0x9b] && IsZero(ip[4..12]) ==> ip[..12] == NAT64
  {
    assert ip[..12] == ip[..4] + ip[4..12];
    assert NAT64 == NAT64[..4] + NAT64[4..12] && NAT64[..4] == [0x00, 0x64, 0xff, 0x9b];
    if IsZero(ip[4..12]) { assert ip[4..12] == NAT64[4..12]; }
  }

  // Every address of 16 bytes: an IPv4 address that it carries decides; otherwise exactly ::, ::1,
  // fc00::/7, fe80::/10 and ff00::/8 are blocked.
  lemma Verdict6(ip: IP)
    requires |ip| == 16
    ensures Carries(ip) ==> (IsBlocked(ip) <==> InBlockedRange(Word(ip[12], ip[13], ip[14], ip[15])))
    ensures !Carries(ip) ==>
              (IsBlocked(ip) <==> ip == LOOPBACK6 || ip == UNSPECIFIED6 || ip[0] & 0xfe == 0xfc
                                  || (ip[0] == 0xfe && ip[1] & 0xc0 == 0x80) || ip[0] == 0xff)
  {
    CarriesExactly(ip);
    if To4(ip).Some? {
      MappedVerdict(ip);
      PlainBlocked(ip[12], ip[13], ip[14], ip[15]);
    } else if EmbeddedIPv4(ip).Some? {
      EmbeddedVerdict(ip);
      PlainBlocked(ip[12], ip[13], ip[14], ip[15]);
    } else {
      NotEmbeddedIsSpecial(ip);
    }
  }
}
