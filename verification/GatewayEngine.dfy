/** The engine's two gateway routines: what addresses a VPC's router should carry, and making the
    router carry them, one netlink call at a time. */
module GatewayEngine {
  import opened Ipv4
  import opened Keys
  import opened Rows
  import opened StoreInvariant
  import opened Machine
  import opened NetInvariant
  import opened NetProofs
  import opened Runs

  // ---- desiredGateways ----

  predicate FitsIn(vpc: Id, prefix: Prefix, s: Subnet) {
    s.vpc == vpc && Valid(s.cidr) && Masked(s.cidr) == s.cidr && prefix.bits <= s.cidr.bits <= 28 &&
    prefix.bits <= 32 && Contains(prefix, s.cidr.addr)
  }

  predicate Separate(a: Prefix, b: Prefix) {
    a.bits <= 32 && b.bits <= 32 && !Overlaps(a, b)
  }

  /** A plan the engine accepts: canonical ranges inside the VPC's, no two sharing an address. */
  ghost predicate GoodPlan(vpc: Id, prefix: Prefix, subnets: seq<Subnet>) {
    && Canonical(prefix) && (forall n :: 0 <= n < |subnets| ==> FitsIn(vpc, prefix, subnets[n]))
    && (forall m, n :: 0 <= m < n < |subnets| ==> Separate(subnets[n].cidr, subnets[m].cidr))
  }

  function Insert(xs: seq<nat>, x: nat): (ys: seq<nat>)
    requires Ascending(xs) && x !in xs
    ensures Ascending(ys) && forall y :: y in ys <==> y == x || y in xs
  {
    if xs == [] then [x]
    else if x < xs[0] then
      assert forall k :: 0 <= k < |xs| ==> xs[0] <= xs[k];
      [x] + xs
    else
      assert forall y :: y in xs <==> y == xs[0] || y in xs[1..];
      assert xs[0] in xs;
      var rest := Insert(xs[1..], x);
      assert forall k :: 0 <= k < |rest| ==> xs[0] < rest[k] by {
        forall k | 0 <= k < |rest| ensures xs[0] < rest[k] {
          assert rest[k] in rest;
        }
      }
      [xs[0]] + rest
  }

  lemma GatewaysDiffer(a: Prefix, b: Prefix)
    requires Canonical(a) && Canonical(b) && Separate(a, b)
    ensures a.addr + 1 != b.addr + 1 && Gateway(a) == a.addr + 1 && Gateway(b) == b.addr + 1
  {
    GatewayInside(a);
    GatewayInside(b);
    DisjointRanges(a, b, Gateway(a), Gateway(b));
  }

  method SortAddresses(xs: seq<nat>) returns (ys: seq<nat>)
    requires Distinct(xs)
    ensures Ascending(ys) && forall x :: x in ys <==> x in xs
  {
    ys := [];
    for i := 0 to |xs|
      invariant Ascending(ys) && forall x :: x in ys <==> x in xs[..i]
    {
      assert xs[i] !in xs[..i];
      assert xs[..i + 1] == xs[..i] + [xs[i]];
      ys := Insert(ys, xs[i]);
    }
  }

  ghost predicate GatewaysOfPlan(gateways: seq<nat>, subnets: seq<Subnet>) {
    |gateways| == |subnets| && forall n :: 0 <= n < |subnets| ==> gateways[n] == subnets[n].cidr.addr + 1
  }

  lemma PlanGivesDistinct(vpc: Id, prefix: Prefix, subnets: seq<Subnet>, gateways: seq<nat>)
    requires GoodPlan(vpc, prefix, subnets) && GatewaysOfPlan(gateways, subnets)
    ensures Distinct(gateways)
  {
    forall m, n | 0 <= m < n < |gateways| ensures gateways[m] != gateways[n] {
      assert FitsIn(vpc, prefix, subnets[m]) && FitsIn(vpc, prefix, subnets[n]);
      GatewaysDiffer(subnets[n].cidr, subnets[m].cidr);
    }
  }

  lemma PlanGrows(vpc: Id, prefix: Prefix, prior: seq<Subnet>, s: Subnet)
    requires GoodPlan(vpc, prefix, prior) && FitsIn(vpc, prefix, s)
    requires forall m :: 0 <= m < |prior| ==> Separate(s.cidr, prior[m].cidr)
    ensures GoodPlan(vpc, prefix, prior + [s])
  {}

  /** The addresses of a plan. */
  ghost function Wanted(subnets: seq<Subnet>): set<nat> {
    set n | 0 <= n < |subnets| :: subnets[n].cidr.addr + 1
  }

  lemma PlanGivesWanted(subnets: seq<Subnet>, gateways: seq<nat>)
    requires GatewaysOfPlan(gateways, subnets)
    ensures forall g :: g in gateways <==> g in Wanted(subnets)
  {
    forall g ensures g in gateways <==> g in Wanted(subnets) {}
  }

  /** The inner loop: whether the range overlaps none of those seen before. */
  method ApartFromAll(cidr: Prefix, seen: seq<Prefix>) returns (apart: bool)
    requires cidr.bits <= 32 && forall m :: 0 <= m < |seen| ==> seen[m].bits <= 32
    ensures apart <==> forall m :: 0 <= m < |seen| ==> Separate(cidr, seen[m])
  {
    for j := 0 to |seen|
      invariant forall m :: 0 <= m < j ==> Separate(cidr, seen[m])
    {
      if Overlaps(cidr, seen[j]) {
        assert !Separate(cidr, seen[j]);
        return false;
      }
    }
    apart := true;
  }

  ghost predicate RangesOf(seen: seq<Prefix>, subnets: seq<Subnet>) {
    |seen| == |subnets| && forall n :: 0 <= n < |subnets| ==> seen[n] == subnets[n].cidr
  }

  lemma SeenAreValid(vpc: Id, prefix: Prefix, seen: seq<Prefix>, prior: seq<Subnet>)
    requires GoodPlan(vpc, prefix, prior) && RangesOf(seen, prior)
    ensures forall m :: 0 <= m < |seen| ==> seen[m].bits <= 32
  {
    forall m | 0 <= m < |seen| ensures seen[m].bits <= 32 {
      assert FitsIn(vpc, prefix, prior[m]);
    }
  }

  lemma ClashIsBad(vpc: Id, prefix: Prefix, subnets: seq<Subnet>, i: nat, seen: seq<Prefix>, m: nat)
    requires i < |subnets| && RangesOf(seen, subnets[..i]) && m < i && !Separate(subnets[i].cidr, seen[m])
    ensures !GoodPlan(vpc, prefix, subnets)
  {
    assert seen[m] == subnets[m].cidr;
  }

  /** Accepts exactly the good plans, and then returns their gateways, strictly ascending. */
  method DesiredGateways(vpc: Id, prefix: Prefix, subnets: seq<Subnet>) returns (r: Option<seq<nat>>)
    ensures r.Some? <==> GoodPlan(vpc, prefix, subnets)
    ensures r.Some? ==> Ascending(r.value)
    ensures r.Some? ==> forall g :: g in r.value <==> g in Wanted(subnets)
  {
    if !Canonical(prefix) {
      return None;
    }
    var gateways: seq<nat> := [];
    var seen: seq<Prefix> := [];
    for i := 0 to |subnets|
      invariant GoodPlan(vpc, prefix, subnets[..i]) && GatewaysOfPlan(gateways, subnets[..i]) &&
                RangesOf(seen, subnets[..i])
    {
      var cidr := subnets[i].cidr;
      if !FitsIn(vpc, prefix, subnets[i]) {
        return None;
      }
      SeenAreValid(vpc, prefix, seen, subnets[..i]);
      var apart := ApartFromAll(cidr, seen);
      if !apart {
        ghost var m :| 0 <= m < |seen| && !Separate(cidr, seen[m]);
        ClashIsBad(vpc, prefix, subnets, i, seen, m);
        return None;
      }
      seen := seen + [cidr];
      gateways := gateways + [cidr.addr + 1];
      assert subnets[..i + 1] == subnets[..i] + [subnets[i]];
      PlanGrows(vpc, prefix, subnets[..i], subnets[i]);
    }
    assert subnets[..|subnets|] == subnets;
    PlanGivesDistinct(vpc, prefix, subnets, gateways);
    PlanGivesWanted(subnets, gateways);
    var sorted := SortAddresses(gateways);
    r := Some(sorted);
  }

  // ---- What a pass asks for ----

  /** The children a pass has listed, in id order. */
  function InOrder(kids: map<Id, Subnet>): seq<Subnet> {
    var ids := Listing(kids.Keys);
    seq(|ids|, n requires 0 <= n < |ids| => assert ids[n] in ids; kids[ids[n]])
  }

  lemma ListedFrom(kids: map<Id, Subnet>, s: Subnet) returns (c: Id)
    requires s in InOrder(kids)
    ensures c in kids && kids[c] == s
  {
    var ids := Listing(kids.Keys);
    var n :| 0 <= n < |ids| && InOrder(kids)[n] == s;
    c := ids[n];
  }

  lemma ChildListed(kids: map<Id, Subnet>, c: Id)
    requires c in kids
    ensures kids[c] in InOrder(kids)
  {
    var ids := Listing(kids.Keys);
    assert c in ids;
    var n :| 0 <= n < |ids| && ids[n] == c;
    assert InOrder(kids)[n] == kids[c];
  }

  function Active(rows: seq<Subnet>): seq<Subnet> {
    if rows == [] then [] else (if rows[0].deleting then [] else [rows[0]]) + Active(rows[1..])
  }

  lemma {:induction false} ActiveHas(rows: seq<Subnet>, s: Subnet)
    ensures s in Active(rows) <==> s in rows && !s.deleting
  {
    if rows != [] {
      ActiveHas(rows[1..], s);
      assert rows == [rows[0]] + rows[1..];
    }
  }

  /** The reconciler's loop that leaves out children with deletion intent. */
  method ActiveSubnets(rows: seq<Subnet>) returns (live: seq<Subnet>)
    ensures live == Active(rows)
  {
    live := [];
    for i := 0 to |rows|
      invariant live == Active(rows[..i])
    {
      ActiveMore(rows[..i], rows[i]);
      assert rows[..i + 1] == rows[..i] + [rows[i]];
      if !rows[i].deleting {
        live := live + [rows[i]];
      }
    }
    assert rows[..|rows|] == rows;
  }

  lemma {:induction false} ActiveMore(rows: seq<Subnet>, s: Subnet)
    ensures Active(rows + [s]) == Active(rows) + if s.deleting then [] else [s]
  {
    if rows == [] {
      assert Active([]) == [] && ([s])[1..] == [];
    } else {
      var more, front, back := rows + [s], if rows[0].deleting then [] else [rows[0]], if s.deleting then [] else [s];
      ActiveMore(rows[1..], s);
      assert more[0] == rows[0] && more[1..] == rows[1..] + [s];
      assert front + (Active(rows[1..]) + back) == (front + Active(rows[1..])) + back;
    }
  }

  lemma RestIsGood(vpc: Id, prefix: Prefix, rows: seq<Subnet>)
    requires GoodPlan(vpc, prefix, rows) && rows != []
    ensures GoodPlan(vpc, prefix, rows[1..])
    ensures forall s :: s in rows[1..] ==> Separate(s.cidr, rows[0].cidr)
  {
    var rest := rows[1..];
    forall m, n | 0 <= m < n < |rest| ensures Separate(rest[n].cidr, rest[m].cidr) {
      assert rest[n] == rows[n + 1] && rest[m] == rows[m + 1];
    }
  }

  lemma MoreIsGood(vpc: Id, prefix: Prefix, first: Subnet, rest: seq<Subnet>)
    requires GoodPlan(vpc, prefix, rest) && FitsIn(vpc, prefix, first)
    requires forall n :: 0 <= n < |rest| ==> Separate(rest[n].cidr, first.cidr)
    ensures GoodPlan(vpc, prefix, [first] + rest)
  {}

  lemma {:induction false} ActivePlanIsGood(vpc: Id, prefix: Prefix, rows: seq<Subnet>)
    requires GoodPlan(vpc, prefix, rows)
    ensures GoodPlan(vpc, prefix, Active(rows))
  {
    if rows != [] {
      var live := Active(rows[1..]);
      RestIsGood(vpc, prefix, rows);
      ActivePlanIsGood(vpc, prefix, rows[1..]);
      if !rows[0].deleting {
        forall n | 0 <= n < |live| ensures Separate(live[n].cidr, rows[0].cidr) {
          ActiveHas(rows[1..], live[n]);
        }
        MoreIsGood(vpc, prefix, rows[0], live);
      }
    }
  }

  lemma SnapshotPlanIsGood(vpcs: map<Id, Vpc>, subnets: map<Id, Subnet>, vpc: Id, prefix: Prefix, kids: map<Id, Subnet>)
    requires PlanOk(vpcs, subnets) && vpc in vpcs && vpcs[vpc].cidr == prefix && HeldKids(subnets, vpc, kids)
    ensures GoodPlan(vpc, prefix, InOrder(kids))
  {
    var ids, rows := Listing(kids.Keys), InOrder(kids);
    assert Canonical(vpcs[vpc].cidr);
    forall n | 0 <= n < |rows| ensures FitsIn(vpc, prefix, rows[n]) {
      assert ids[n] in kids && SubnetDrift(kids[ids[n]], subnets[ids[n]]);
      assert Nested(vpcs, subnets[ids[n]]);
    }
    forall m, n | 0 <= m < n < |rows| ensures Separate(rows[n].cidr, rows[m].cidr) {
      assert ids[n] in kids && ids[m] in kids;
      assert SubnetDrift(kids[ids[n]], subnets[ids[n]]) && SubnetDrift(kids[ids[m]], subnets[ids[m]]);
      assert Apart(subnets[ids[n]], subnets[ids[m]]);
    }
  }

  /** In every reachable state the engine accepts the snapshot the pass holds, however old it is. */
  lemma EngineNeverRefuses(s: Sys)
    requires Reachable(s) && s.net.NetSnap?
    ensures GoodPlan(s.net.id, s.net.vpc.cidr, Active(InOrder(s.net.kids)))
  {
    ReachableInv(s);
    DriftIdentity(s.db.issued, s.db.vpcs, s.net.id, s.net.vpc);
    SnapshotPlanIsGood(s.db.vpcs, s.db.subnets, s.net.id, s.net.vpc.cidr, s.net.kids);
    ActivePlanIsGood(s.net.id, s.net.vpc.cidr, InOrder(s.net.kids));
  }

  lemma PlanGateway(vpc: Id, prefix: Prefix, subnets: seq<Subnet>, n: nat)
    requires GoodPlan(vpc, prefix, subnets) && n < |subnets|
    ensures subnets[n].cidr.bits <= 32 && Gateway(subnets[n].cidr) == subnets[n].cidr.addr + 1
  {
    assert FitsIn(vpc, prefix, subnets[n]);
    GatewayInside(subnets[n].cidr);
  }

  lemma AskedIsGateway(vpc: Id, prefix: Prefix, kids: map<Id, Subnet>, live: seq<Subnet>, n: nat)
    requires live == Active(InOrder(kids)) && GoodPlan(vpc, prefix, live) && n < |live|
    ensures live[n].cidr.addr + 1 in Gateways(kids)
  {
    ActiveHas(InOrder(kids), live[n]);
    var c := ListedFrom(kids, live[n]);
    PlanGateway(vpc, prefix, live, n);
    assert Gateway(kids[c].cidr) in Gateways(kids);
  }

  lemma GatewayIsAsked(vpc: Id, prefix: Prefix, kids: map<Id, Subnet>, live: seq<Subnet>, c: Id)
    requires live == Active(InOrder(kids)) && GoodPlan(vpc, prefix, live)
    requires c in kids && !kids[c].deleting && kids[c].cidr.bits <= 32
    ensures Gateway(kids[c].cidr) in Wanted(live)
  {
    var n := LiveListed(kids, live, c);
    PlanGateway(vpc, prefix, live, n);
  }

  lemma LiveListed(kids: map<Id, Subnet>, live: seq<Subnet>, c: Id) returns (n: nat)
    requires live == Active(InOrder(kids)) && c in kids && !kids[c].deleting
    ensures n < |live| && live[n] == kids[c]
  {
    ChildListed(kids, c);
    ActiveHas(InOrder(kids), kids[c]);
    n :| 0 <= n < |live| && live[n] == kids[c];
  }

  /** The addresses a pass asks for are the gateways of the live children of its snapshot. */
  lemma DesiredAreGateways(vpc: Id, prefix: Prefix, kids: map<Id, Subnet>, live: seq<Subnet>)
    requires live == Active(InOrder(kids)) && GoodPlan(vpc, prefix, live)
    ensures Wanted(live) == Gateways(kids)
  {
    forall g | g in Wanted(live) ensures g in Gateways(kids) {
      var n :| 0 <= n < |live| && g == live[n].cidr.addr + 1;
      AskedIsGateway(vpc, prefix, kids, live, n);
    }
    forall g | g in Gateways(kids) ensures g in Wanted(live) {
      var c :| c in kids && !kids[c].deleting && kids[c].cidr.bits <= 32 && Gateway(kids[c].cidr) == g;
      GatewayIsAsked(vpc, prefix, kids, live, c);
    }
  }

  // ---- reconcileGateways ----

  /** How an address sits on the router link. */
  datatype Mark = Mark(managed: bool, bits: nat)

  /** The namespace of one VPC and the addresses of its router. */
  class Router {
    var present: bool
    var addrs: map<nat, Mark>

    ghost predicate Valid()
      reads this
    {
      !present ==> addrs == map[]
    }

    /** AddrDel and AddrAdd either do their work or fail and do nothing. */
    method AddrDel(ip: nat, works: bool) returns (ok: bool)
      modifies this`addrs
      ensures ok == works && addrs == if works then old(addrs) - {ip} else old(addrs)
    {
      if works {
        addrs := addrs - {ip};
      }
      ok := works;
    }

    method AddrAdd(ip: nat, works: bool) returns (ok: bool)
      modifies this`addrs
      ensures ok == works && addrs == if works then old(addrs)[ip := Mark(true, 32)] else old(addrs)
    {
      if works {
        addrs := addrs[ip := Mark(true, 32)];
      }
      ok := works;
    }

    /** The first loop: unmanaged addresses are an error, wanted ones are ticked off, stale ones go. */
    method RemoveStale(existing: seq<nat>, desired: seq<nat>, works: nat -> bool)
        returns (ok: bool, wanted: map<nat, bool>, calls: nat)
      requires Distinct(existing) && forall ip :: ip in existing <==> ip in addrs
      modifies this`addrs
      ensures forall ip :: ip in addrs ==> ip in old(addrs) && addrs[ip] == old(addrs)[ip]
      ensures forall ip :: ip in old(addrs) && ip in desired ==> ip in addrs
      ensures ok ==> forall ip :: ip in addrs ==> ip in desired && addrs[ip] == Mark(true, 32)
      ensures ok ==> forall ip :: ip in desired ==> ip in wanted && (wanted[ip] ==> ip in addrs)
      ensures Willing(works) && Tidy(old(addrs), desired) ==> ok
    {
      ghost var before := addrs;
      wanted := map ip | ip in desired :: false;
      calls, ok := 0, false;
      for i := 0 to |existing|
        invariant forall ip :: ip in wanted <==> ip in desired
        invariant forall ip :: ip in wanted && wanted[ip] ==> ip in addrs
        invariant forall ip :: ip in addrs ==> ip in before && addrs[ip] == before[ip]
        invariant forall ip :: ip in before && ip in desired ==> ip in addrs
        invariant forall n :: i <= n < |existing| ==> existing[n] in addrs
        invariant forall n :: 0 <= n < i && existing[n] in addrs ==>
                  existing[n] in desired && addrs[existing[n]] == Mark(true, 32)
      {
        var ip := existing[i];
        if !addrs[ip].managed {
          return;
        }
        if ip in wanted {
          if addrs[ip].bits != 32 {
            return;
          }
          wanted := wanted[ip := true];
        } else {
          var worked := AddrDel(ip, works(calls));
          calls := calls + 1;
          if !worked {
            return;
          }
        }
      }
      forall ip | ip in addrs ensures ip in desired && addrs[ip] == Mark(true, 32) {
        assert ip in existing;
      }
      ok := true;
    }

    /** The second loop: everything wanted that was not ticked off is added. */
    method AddMissing(desired: seq<nat>, wanted: map<nat, bool>, works: nat -> bool, made: nat) returns (ok: bool)
      requires forall ip :: ip in addrs ==> ip in desired && addrs[ip] == Mark(true, 32)
      requires forall ip :: ip in desired ==> ip in wanted && (wanted[ip] ==> ip in addrs)
      modifies this`addrs
      ensures forall ip :: ip in old(addrs) ==> ip in addrs
      ensures forall ip :: ip in addrs ==> ip in desired && addrs[ip] == Mark(true, 32)
      ensures ok ==> forall ip :: ip in desired ==> ip in addrs
      ensures Willing(works) ==> ok
    {
      var calls := made;
      for i := 0 to |desired|
        invariant forall ip :: ip in old(addrs) ==> ip in addrs
        invariant forall ip :: ip in addrs ==> ip in desired && addrs[ip] == Mark(true, 32)
        invariant forall n :: 0 <= n < i ==> desired[n] in addrs
      {
        var ip := desired[i];
        if !wanted[ip] {
          var worked := AddrAdd(ip, works(calls));
          calls := calls + 1;
          if !worked {
            return false;
          }
        }
      }
      ok := true;
    }

    /** Takes stale addresses off, then puts missing ones on. `works` decides each netlink call by its
        number. However it ends, an address that was there and is wanted is still there, and nothing
        is there that neither was nor is wanted. */
    method ReconcileGateways(existing: seq<nat>, desired: seq<nat>, works: nat -> bool) returns (done: bool)
      requires Distinct(existing) && forall ip :: ip in existing <==> ip in addrs
      modifies this`addrs
      ensures forall ip :: ip in old(addrs) && ip in desired ==> ip in addrs && addrs[ip] == old(addrs)[ip]
      ensures Between(old(addrs).Keys, (set g | g in desired), addrs.Keys)
      ensures done ==> addrs.Keys == (set g | g in desired)
      ensures done ==> forall ip :: ip in addrs ==> addrs[ip] == Mark(true, 32)
      ensures Willing(works) && Tidy(old(addrs), desired) ==> done
    {
      var ok, wanted, calls := RemoveStale(existing, desired, works);
      if !ok {
        return false;
      }
      done := AddMissing(desired, wanted, works, calls);
    }

    /** EnsureVPC: check the index and the plan, make the namespace if it is missing, prepare it, set
        the gateways, then the policy rules. Every stage may fail; a failing Ensure may or may not have
        made the namespace. What is left is what the machine allows an engine call to leave, and after
        a call that succeeds the router carries exactly the planned addresses. */
    method EnsureVpc(id: Id, vpc: Vpc, subnets: seq<Subnet>, existing: seq<nat>, stages: Stages) returns (done: bool)
      requires Valid() && Distinct(existing) && forall ip :: ip in existing <==> ip in addrs
      modifies this
      ensures Valid() && (done ==> 1 <= vpc.index <= MAX_INDEX && GoodPlan(id, vpc.cidr, subnets))
      ensures !GoodPlan(id, vpc.cidr, subnets) ==> present == old(present) && addrs == old(addrs)
      ensures Interrupted(Space(vpc.index, old(present), old(addrs).Keys), vpc.index, Wanted(subnets),
                          Left(present, addrs.Keys))
      ensures done ==> Left(present, addrs.Keys) == Some(Wanted(subnets))
      ensures 1 <= vpc.index <= MAX_INDEX && GoodPlan(id, vpc.cidr, subnets) && stages.Succeed() && Managed(old(addrs))
              ==> done
    {
      if vpc.index < 1 || vpc.index > MAX_INDEX {
        return false;
      }
      var plan := DesiredGateways(id, vpc.cidr, subnets);
      if plan.None? {
        return false;
      }
      assert (set g | g in plan.value) == Wanted(subnets);
      if stages.ensured || stages.made {
        present := true;
      }
      if !stages.ensured || !stages.prepared {
        return false;
      }
      var ok := ReconcileGateways(existing, plan.value, stages.works);
      done := ok && stages.ruled;
    }
  }

  /** How the stages of an engine call turn out. */
  datatype Stages = Stages(made: bool, ensured: bool, prepared: bool, works: nat -> bool, ruled: bool) {
    ghost predicate Succeed() {
      ensured && prepared && Willing(works) && ruled
    }
  }

  ghost predicate Willing(works: nat -> bool) {
    forall n :: works(n)
  }

  /** Nothing on the router makes the routine refuse: all addresses are its own, wanted ones single. */
  predicate Tidy(addrs: map<nat, Mark>, desired: seq<nat>) {
    forall ip :: ip in addrs ==> addrs[ip].managed && (ip in desired ==> addrs[ip].bits == 32)
  }

  predicate Managed(addrs: map<nat, Mark>) {
    forall ip :: ip in addrs ==> addrs[ip] == Mark(true, 32)
  }

  predicate Between(had: set<nat>, desired: set<nat>, after: set<nat>) {
    had * desired <= after <= had + desired
  }

  /** One namespace, as the machine keeps it. */
  function Space(k: Index, present: bool, addrs: set<nat>): map<Index, set<nat>> {
    if present then map[k := addrs] else map[]
  }

  function Left(present: bool, addrs: set<nat>): Option<set<nat>> {
    if present then Some(addrs) else None
  }

  lemma CallIsStep(s: Sys, left: Option<set<nat>>, done: bool, cause: string)
    requires s.net.NetSnap? && !s.net.vpc.deleting && Interrupted(s.spaces, s.net.vpc.index, Gateways(s.net.kids), left)
    requires done ==> s.net.vpc.index <= MAX_INDEX && left == Some(Gateways(s.net.kids))
    ensures
      var t := NetEngineStep(s, if done then Fine else Fails(cause), left);
      && t == s.(net := t.net, spaces := if left.None? then s.spaces else s.spaces[s.net.vpc.index := left.value])
      && t.net == NetDone(s.net.id, s.net.vpc, s.net.kids, if done then None else Some(cause))
  {}

  /** The engine step of the machine is such a call on the children the pass holds: whatever EnsureVpc
      leaves, done or not, is the outcome of a step, which then moves exactly that namespace. */
  lemma EngineStepIsCall(s: Sys, present: bool, addrs: set<nat>, left: Option<set<nat>>, done: bool, cause: string)
    requires Reachable(s) && s.net.NetSnap? && !s.net.vpc.deleting
    requires if present then s.net.vpc.index in s.spaces && s.spaces[s.net.vpc.index] == addrs
             else s.net.vpc.index !in s.spaces
    requires Interrupted(Space(s.net.vpc.index, present, addrs), s.net.vpc.index,
                         Wanted(Active(InOrder(s.net.kids))), left)
    requires done ==> s.net.vpc.index <= MAX_INDEX && left == Some(Wanted(Active(InOrder(s.net.kids))))
    ensures
      var t := NetEngineStep(s, if done then Fine else Fails(cause), left);
      && t == s.(net := t.net, spaces := if left.None? then s.spaces else s.spaces[s.net.vpc.index := left.value])
      && t.net == NetDone(s.net.id, s.net.vpc, s.net.kids, if done then None else Some(cause))
  {
    EngineNeverRefuses(s);
    DesiredAreGateways(s.net.id, s.net.vpc.cidr, s.net.kids, Active(InOrder(s.net.kids)));
    CallIsStep(s, left, done, cause);
  }
}
