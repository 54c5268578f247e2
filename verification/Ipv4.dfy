/** IPv4 prefixes as address ranges, and the first-free allocator built on them.
    An address is its 32-bit value; a prefix is an address and a length (section 3.1 of RFC 4632). */
module Ipv4 {

  const LIMIT: nat := 0x1_0000_0000

  datatype Option<+T> = None | Some(value: T)

  datatype Prefix = Prefix(addr: nat, bits: nat)

  /** Any well-formed IPv4 prefix, host bits allowed. */
  predicate Valid(p: Prefix) {
    p.bits <= 32 && p.addr < LIMIT
  }

  function Pow2(n: nat): (r: nat)
    ensures r > 0
  {
    if n == 0 then 1 else 2 * Pow2(n - 1)
  }

  function Size(p: Prefix): (r: nat)
    requires p.bits <= 32
    ensures r > 0
  {
    Pow2(32 - p.bits)
  }

  /** The multiple of s at or below x, by repeated subtraction. */
  function Floor(x: nat, s: nat): (r: nat)
    requires s > 0
    ensures r <= x < r + s
  {
    if x < s then 0 else s + Floor(x - s, s)
  }

  function Base(p: Prefix): (r: nat)
    requires p.bits <= 32
    ensures r <= p.addr < r + Size(p)
  {
    Floor(p.addr, Size(p))
  }

  function Masked(p: Prefix): Prefix
    requires p.bits <= 32
  {
    Prefix(Base(p), p.bits)
  }

  /** Both addresses agree on the leading `bits` bits: clearing the other bits leaves the same. */
  predicate Contains(p: Prefix, a: nat)
    requires p.bits <= 32
  {
    Floor(a, Size(p)) == Floor(p.addr, Size(p))
  }

  predicate Overlaps(a: Prefix, b: Prefix)
    requires a.bits <= 32 && b.bits <= 32
  {
    Contains(Masked(a), Masked(b).addr) || Contains(Masked(b), Masked(a).addr)
  }

  predicate RangeOk(vpc: Prefix, subnet: Prefix)
    requires vpc.bits <= 32 && subnet.bits <= 32
  {
    vpc.bits <= subnet.bits && Contains(Masked(vpc), Masked(subnet).addr)
  }

  /** What ParseCIDR lets through: /16 to /28, host bits cleared. */
  predicate Canonical(p: Prefix) {
    Valid(p) && 16 <= p.bits <= 28 && Masked(p) == p
  }

  function ParseCidr(raw: Prefix): (r: Option<Prefix>)
    requires Valid(raw)
    ensures r.Some? <==> 16 <= raw.bits <= 28
    ensures r.Some? ==> Canonical(r.value) && forall a: nat :: Contains(r.value, a) <==> Contains(raw, a)
  {
    if 16 <= raw.bits <= 28 then
      MaskedSame(raw);
      Some(Masked(raw))
    else None
  }

  function Gateway(p: Prefix): nat
    requires p.bits <= 32
  {
    Base(p) + 1
  }

  function Last(p: Prefix): nat
    requires p.bits <= 32
  {
    Base(p) + (Size(p) - 1)
  }

  /** reservedAddress: the first four addresses and the final one. */
  predicate Reserved(p: Prefix, a: nat)
    requires p.bits <= 32
  {
    16 <= p.bits <= 28 && Contains(p, a) && (a - Base(p) <= 3 || a - Base(p) == Size(p) - 1)
  }

  predicate Assignable(p: Prefix, a: nat)
    requires p.bits <= 32
  {
    Contains(p, a) && !Reserved(p, a)
  }

  // ---- Arithmetic ----

  /** A multiple of s, by repeated subtraction. */
  predicate Multiple(m: nat, s: nat)
    requires s > 0
  {
    m == 0 || (m >= s && Multiple(m - s, s))
  }

  lemma {:induction false} FloorIsMultiple(x: nat, s: nat)
    requires s > 0
    ensures Multiple(Floor(x, s), s)
  {
    if x >= s {
      FloorIsMultiple(x - s, s);
    }
  }

  lemma {:induction false} MultiplesAdd(a: nat, b: nat, s: nat)
    requires s > 0 && Multiple(a, s) && Multiple(b, s)
    ensures Multiple(a + b, s)
    decreases a
  {
    if a > 0 {
      MultiplesAdd(a - s, b, s);
    }
  }

  /** A multiple of the bigger of two sizes is one of the smaller. */
  lemma {:induction false} MultipleOfFiner(m: nat, big: nat, s: nat)
    requires s > 0 && big > 0 && Multiple(big, s) && Multiple(m, big)
    ensures Multiple(m, s)
  {
    if m > 0 {
      MultipleOfFiner(m - big, big, s);
      MultiplesAdd(m - big, big, s);
    }
  }

  /** Two multiples of s are at least s apart. */
  lemma {:induction false} MultiplesApart(u: nat, v: nat, s: nat)
    requires s > 0 && Multiple(u, s) && Multiple(v, s) && u < v
    ensures u + s <= v
    decreases u
  {
    if u > 0 {
      MultiplesApart(u - s, v - s, s);
    }
  }

  /** The floor is determined by the step an address falls in. */
  lemma {:induction false} FloorOf(b: nat, x: nat, s: nat)
    requires s > 0 && Multiple(b, s) && b <= x < b + s
    ensures Floor(x, s) == b
    decreases b
  {
    if b > 0 {
      FloorOf(b - s, x - s, s);
    }
  }

  /** Containment is membership of the half-open range that starts at the base. */
  lemma ContainsIsRange(p: Prefix, a: nat)
    requires p.bits <= 32
    ensures Contains(p, a) <==> Base(p) <= a < Base(p) + Size(p)
  {
    FloorIsMultiple(p.addr, Size(p));
    if Base(p) <= a < Base(p) + Size(p) {
      FloorOf(Base(p), a, Size(p));
    }
  }

  lemma MaskedSame(p: Prefix)
    requires p.bits <= 32
    ensures Base(Masked(p)) == Base(p) && Masked(p).addr == Base(p)
    ensures forall a: nat :: Contains(Masked(p), a) <==> Contains(p, a)
  {
    FloorIsMultiple(p.addr, Size(p));
    FloorOf(Base(p), Base(p), Size(p));
  }

  lemma {:induction false} Pow2Multiple(m: nat, n: nat)
    requires m <= n
    ensures Multiple(Pow2(n), Pow2(m))
    decreases n
  {
    if m < n {
      Pow2Multiple(m, n - 1);
      MultiplesAdd(Pow2(n - 1), Pow2(n - 1), Pow2(m));
    }
  }

  lemma {:induction false} Pow2Grows(m: nat, n: nat)
    requires m <= n
    ensures Pow2(m) <= Pow2(n)
    ensures m < n ==> Pow2(m) < Pow2(n)
    decreases n
  {
    if m < n {
      Pow2Grows(m, n - 1);
    }
  }

  /** A block starts and ends on multiples of every smaller block size. */
  lemma BlockAligned(big: Prefix, small: Prefix)
    requires big.bits <= small.bits <= 32
    ensures Multiple(Base(big), Size(small)) && Multiple(Base(big) + Size(big), Size(small))
  {
    Pow2Multiple(32 - small.bits, 32 - big.bits);
    FloorIsMultiple(big.addr, Size(big));
    MultipleOfFiner(Base(big), Size(big), Size(small));
    MultiplesAdd(Base(big), Size(big), Size(small));
  }

  /** If a block of the smaller size shares an address with the bigger one, it lies inside it. */
  lemma SharedMeansInside(big: Prefix, small: Prefix, x: nat)
    requires big.bits <= small.bits <= 32
    requires Contains(big, x) && Contains(small, x)
    ensures Base(big) <= Base(small) && Base(small) + Size(small) <= Base(big) + Size(big)
  {
    ContainsIsRange(big, x);
    ContainsIsRange(small, x);
    BlockAligned(big, small);
    FloorIsMultiple(small.addr, Size(small));
    MultiplesApart(Base(small), Base(big) + Size(big), Size(small));
    if Base(small) < Base(big) {
      MultiplesApart(Base(small), Base(big), Size(small));
    }
  }

  // ---- What the prefix tests mean ----

  /** Overlaps holds exactly when the two ranges share an address. */
  lemma OverlapsIffShared(a: Prefix, b: Prefix)
    requires a.bits <= 32 && b.bits <= 32
    ensures Overlaps(a, b) <==> exists x: nat :: Contains(a, x) && Contains(b, x)
  {
    MaskedSame(a);
    MaskedSame(b);
    ContainsIsRange(a, Base(a));
    ContainsIsRange(b, Base(b));
    if Overlaps(a, b) {
      if Contains(Masked(a), Base(b)) {
        assert Contains(a, Base(b)) && Contains(b, Base(b));
      } else {
        assert Contains(a, Base(a)) && Contains(b, Base(a));
      }
    }
    if x: nat :| Contains(a, x) && Contains(b, x) {
      if a.bits <= b.bits {
        SharedMeansInside(a, b, x);
        ContainsIsRange(a, Base(b));
      } else {
        SharedMeansInside(b, a, x);
        ContainsIsRange(b, Base(a));
      }
    }
  }

  lemma AcceptedIsInside(vpc: Prefix, subnet: Prefix, x: nat)
    requires vpc.bits <= subnet.bits <= 32 && Contains(vpc, Base(subnet)) && Contains(subnet, x)
    ensures Contains(vpc, x)
  {
    ContainsIsRange(subnet, Base(subnet));
    SharedMeansInside(vpc, subnet, Base(subnet));
    ContainsIsRange(subnet, x);
    ContainsIsRange(vpc, x);
  }

  /** A wider range sticks out at one end. */
  lemma WiderSticksOut(vpc: Prefix, subnet: Prefix) returns (x: nat)
    requires subnet.bits < vpc.bits <= 32
    ensures Contains(subnet, x) && !Contains(vpc, x)
  {
    Pow2Grows(32 - vpc.bits, 32 - subnet.bits);
    var first, last := Base(subnet), Last(subnet);
    ContainsIsRange(subnet, first);
    ContainsIsRange(subnet, last);
    ContainsIsRange(vpc, first);
    ContainsIsRange(vpc, last);
    x := if Contains(vpc, first) then last else first;
  }

  /** ValidateSubnetRange accepts exactly the subnets all of whose addresses are in the VPC. */
  lemma RangeOkIffInside(vpc: Prefix, subnet: Prefix)
    requires vpc.bits <= 32 && subnet.bits <= 32
    ensures RangeOk(vpc, subnet) <==> forall x: nat :: Contains(subnet, x) ==> Contains(vpc, x)
  {
    MaskedSame(vpc);
    MaskedSame(subnet);
    ContainsIsRange(subnet, Base(subnet));
    if RangeOk(vpc, subnet) {
      forall x: nat | Contains(subnet, x) ensures Contains(vpc, x) {
        AcceptedIsInside(vpc, subnet, x);
      }
    } else if vpc.bits > subnet.bits {
      var x := WiderSticksOut(vpc, subnet);
    } else {
      assert Contains(subnet, Base(subnet)) && !Contains(vpc, Base(subnet));
    }
  }

  lemma DisjointRanges(a: Prefix, b: Prefix, x: nat, y: nat)
    requires a.bits <= 32 && b.bits <= 32 && !Overlaps(a, b)
    requires Contains(a, x) && Contains(b, y)
    ensures x != y
  {
    OverlapsIffShared(a, b);
  }

  lemma GatewayInside(p: Prefix)
    requires p.bits <= 28
    ensures Contains(p, Gateway(p)) && Size(p) >= 16
  {
    Pow2Grows(4, 32 - p.bits);
    assert Pow2(4) == 16;
    ContainsIsRange(p, Gateway(p));
  }

  // ---- The allocator ----

  /** The loop bounds of nextPrivateIP, the complement of reservedAddress and the check in EnsureENI
      are three descriptions of one set. */
  lemma AssignableThreeWays(p: Prefix, a: nat)
    requires Canonical(p)
    ensures Assignable(p, a) <==> p.addr + 4 <= a < Last(p)
    ensures Assignable(p, a) <==> Contains(p, a) && a >= p.addr + 4 && Contains(p, a + 1)
  {
    ContainsIsRange(p, a);
    ContainsIsRange(p, a + 1);
    GatewayInside(p);
  }

  function Addresses(lo: nat, hi: nat): set<nat> {
    set a {:trigger InRange(a, lo, hi)} | lo <= a < hi && InRange(a, lo, hi)
  }

  predicate InRange(a: nat, lo: nat, hi: nat) {
    lo <= a < hi
  }

  lemma {:induction false} AddressCount(lo: nat, hi: nat)
    requires lo <= hi
    ensures |Addresses(lo, hi)| == hi - lo
    decreases hi - lo
  {
    if lo < hi {
      AddressCount(lo + 1, hi);
      assert Addresses(lo, hi) == {lo} + Addresses(lo + 1, hi);
    }
  }

  /** A canonical subnet has exactly 2^(32-bits) - 5 assignable addresses. */
  lemma AssignableCount(p: Prefix)
    requires Canonical(p)
    ensures (set a | a in Addresses(p.addr, p.addr + Size(p)) && Assignable(p, a)) == Addresses(p.addr + 4, Last(p))
    ensures |Addresses(p.addr + 4, Last(p))| == Pow2(32 - p.bits) - 5
  {
    GatewayInside(p);
    forall a: nat ensures Assignable(p, a) <==> p.addr + 4 <= a < Last(p) {
      AssignableThreeWays(p, a);
    }
    AddressCount(p.addr + 4, Last(p));
  }

  /** The least address of [from, to) that is not used. */
  function FirstFree(from: nat, end: nat, used: set<nat>): (r: Option<nat>)
    ensures r.Some? ==> from <= r.value < end && r.value !in used
    ensures r.Some? ==> forall a :: from <= a < r.value ==> a in used
    ensures r.None? ==> forall a :: from <= a < end ==> a in used
    decreases end - from
  {
    if from >= end then None
    else if from !in used then Some(from)
    else FirstFree(from + 1, end, used)
  }

  datatype Lease = Leased(ip: nat) | Exhausted | NotCanonical

  function NextAddress(p: Prefix, used: set<nat>): Lease
    requires Valid(p)
  {
    if !Canonical(p) then NotCanonical
    else match FirstFree(p.addr + 4, Last(p), used)
      case Some(ip) => Leased(ip)
      case None => Exhausted
  }

  lemma AssignableIsScan(p: Prefix)
    requires Canonical(p)
    ensures p.addr + 4 <= Last(p) == p.addr + (Size(p) - 1)
    ensures forall a: nat :: Assignable(p, a) <==> p.addr + 4 <= a < Last(p)
  {
    GatewayInside(p);
    forall a: nat ensures Assignable(p, a) <==> p.addr + 4 <= a < Last(p) {
      AssignableThreeWays(p, a);
    }
  }

  /** nextPrivateIP: a scan from base+4 that stops at the broadcast address. */
  method NextPrivateIp(p: Prefix, used: set<nat>) returns (r: Lease)
    requires Valid(p)
    ensures r == NextAddress(p, used)
    ensures r.NotCanonical? <==> !Canonical(p)
    ensures r.Leased? ==> Assignable(p, r.ip) && r.ip !in used
    ensures r.Leased? ==> forall a: nat :: Assignable(p, a) && a < r.ip ==> a in used
    ensures r.Exhausted? <==> Canonical(p) && forall a: nat :: Assignable(p, a) ==> a in used
  {
    if !Canonical(p) {
      return NotCanonical;
    }
    AssignableIsScan(p);
    var broadcast := p.addr + (Size(p) - 1);
    var ip := p.addr + 4;
    while ip != broadcast
      invariant p.addr + 4 <= ip <= broadcast == Last(p)
      invariant forall a :: p.addr + 4 <= a < ip ==> a in used
      invariant FirstFree(ip, broadcast, used) == FirstFree(p.addr + 4, broadcast, used)
      decreases broadcast - ip
    {
      if ip !in used {
        return Leased(ip);
      }
      ip := ip + 1;
    }
    r := Exhausted;
  }

  /** ValidateSubnetDisjoint: a scan over the sibling ranges. */
  method SubnetDisjoint(cidr: Prefix, siblings: seq<Prefix>) returns (ok: bool)
    requires cidr.bits <= 32 && forall s :: s in siblings ==> s.bits <= 32
    ensures ok <==> forall s, x: nat {:trigger Contains(s, x)} :: s in siblings && Contains(cidr, x) ==> !Contains(s, x)
    ensures ok <==> forall s :: s in siblings ==> !Overlaps(cidr, s)
  {
    forall s | s in siblings ensures Overlaps(cidr, s) <==> exists x: nat :: Contains(cidr, x) && Contains(s, x) {
      OverlapsIffShared(cidr, s);
    }
    ok := true;
    for i := 0 to |siblings|
      invariant forall j :: 0 <= j < i ==> !Overlaps(cidr, siblings[j])
    {
      if Overlaps(cidr, siblings[i]) {
        return false;
      }
    }
  }
}
