/** What holds of the network rows, the kernel namespaces and the network reconciler's pass in every
    reachable state. */
module NetInvariant {
  import opened Ipv4
  import opened Rows
  import opened Machine

  // ---- How the API may move a row under a pass that holds a snapshot of it ----

  predicate VpcDrift(snap: Vpc, now: Vpc) {
    now == snap || (!snap.deleting && now == MarkVpc(snap))
  }

  predicate SubnetDrift(snap: Subnet, now: Subnet) {
    now == snap || (!snap.deleting && now == MarkSubnet(snap))
  }

  predicate InstanceDrift(snap: Instance, now: Instance) {
    now == snap || (!snap.deleting && now == MarkInstance(snap))
  }

  ghost predicate VpcsMove(issued: seq<Id>, a: map<Id, Vpc>, b: map<Id, Vpc>) {
    && (forall v :: v in a ==> v in b && VpcDrift(a[v], b[v]))
    && (forall v :: v in b && v !in a ==> v !in issued && b[v].index > |issued|)
  }

  ghost predicate SubnetsMove(issued: seq<Id>, a: map<Id, Subnet>, b: map<Id, Subnet>) {
    && (forall s :: s in a ==> s in b && SubnetDrift(a[s], b[s]))
    && (forall s :: s in b && s !in a ==> s !in issued && b[s].state == Pending)
  }

  predicate Newborn(i: Instance) {
    i.state == Booting && !i.deleting && i.runtime.None?
  }

  ghost predicate InstancesMove(issued: seq<Id>, a: map<Id, Instance>, b: map<Id, Instance>) {
    && (forall i :: i in a ==> i in b && InstanceDrift(a[i], b[i]))
    && (forall i :: i in b && i !in a ==> i !in issued && Newborn(b[i]))
  }

  /** The only ways an API request changes rows: new rows, and deletion intent on live ones. */
  ghost predicate ApiMove(a: Db, b: Db) {
    a.issued <= b.issued && VpcsMove(a.issued, a.vpcs, b.vpcs) && SubnetsMove(a.issued, a.subnets, b.subnets) &&
    InstancesMove(a.issued, a.instances, b.instances)
  }

  // ---- The invariant ----

  ghost predicate SpacesIssued(issued: seq<Id>, spaces: map<Index, set<nat>>) {
    forall k :: k in spaces ==> 1 <= k <= |issued|
  }

  ghost predicate HeldVpc(vpcs: map<Id, Vpc>, id: Id, v: Vpc) {
    id in vpcs && VpcDrift(v, vpcs[id])
  }

  /** The listed children are all still there, up to deletion intent; a child that was not listed
      has never been settled. */
  ghost predicate HeldKids(subnets: map<Id, Subnet>, id: Id, kids: map<Id, Subnet>) {
    && (forall c :: c in kids ==> c in subnets && kids[c].vpc == id && SubnetDrift(kids[c], subnets[c]))
    && (forall s :: s in subnets && subnets[s].vpc == id && s !in kids ==> subnets[s].state != Available)
  }

  /** A successful engine call left exactly what it was asked for. */
  ghost predicate Applied(spaces: map<Index, set<nat>>, v: Vpc, kids: map<Id, Subnet>) {
    if v.deleting then v.index !in spaces
    else v.index in spaces && spaces[v.index] == Gateways(kids)
  }

  /** Every namespace of a row at or before the cursor has been noted. */
  ghost predicate Noted(vpcs: map<Id, Vpc>, spaces: map<Index, set<nat>>, after: int, wanted: set<Index>) {
    forall v :: v in vpcs && v <= after && vpcs[v].index in spaces ==> vpcs[v].index in wanted
  }

  ghost predicate AllNoted(vpcs: map<Id, Vpc>, spaces: map<Index, set<nat>>, wanted: set<Index>) {
    forall v :: v in vpcs && vpcs[v].index in spaces ==> vpcs[v].index in wanted
  }

  ghost predicate NetPcOk(vpcs: map<Id, Vpc>, subnets: map<Id, Subnet>, spaces: map<Index, set<nat>>, net: NetPc) {
    match net
    case NetIdle => true
    case NetVpc(id, v) => HeldVpc(vpcs, id, v)
    case NetSnap(id, v, kids) => HeldVpc(vpcs, id, v) && HeldKids(subnets, id, kids)
    case NetDone(id, v, kids, failure) =>
      HeldVpc(vpcs, id, v) && HeldKids(subnets, id, kids) && (failure.None? ==> Applied(spaces, v, kids))
    case Scanning(after, wanted) => Noted(vpcs, spaces, after, wanted)
    case Scanned(wanted) => AllNoted(vpcs, spaces, wanted)
    case Dropping(_, wanted) => AllNoted(vpcs, spaces, wanted)
  }

  /** While a pass over its VPC holds a snapshot, the subnet is part of it. */
  predicate Seen(net: NetPc, vpc: Id, subnet: Id) {
    (net.NetSnap? || net.NetDone?) && net.id == vpc ==> subnet in net.kids
  }

  predicate Owner(subnets: map<Id, Subnet>, net: NetPc, vpc: Id, subnet: Id, g: nat) {
    subnet in subnets && subnets[subnet].vpc == vpc && subnets[subnet].cidr.bits <= 32 &&
    Gateway(subnets[subnet].cidr) == g && Seen(net, vpc, subnet)
  }

  ghost predicate Owned(subnets: map<Id, Subnet>, net: NetPc, vpc: Id, g: nat) {
    exists s :: Owner(subnets, net, vpc, s, g)
  }

  /** Every address on the router of a VPC that has a row is the gateway of one of its subnets. */
  ghost predicate GatewaysOwned(vpcs: map<Id, Vpc>, subnets: map<Id, Subnet>, spaces: map<Index, set<nat>>,
                                net: NetPc) {
    forall v, g {:trigger Owned(subnets, net, v, g)} ::
      v in vpcs && vpcs[v].index in spaces && g in spaces[vpcs[v].index] ==> Owned(subnets, net, v, g)
  }

  /** The namespace of the subnet's VPC exists and carries the subnet's gateway. */
  predicate GateUp(vpcs: map<Id, Vpc>, spaces: map<Index, set<nat>>, s: Subnet) {
    s.vpc in vpcs && s.cidr.bits <= 32 && vpcs[s.vpc].index in spaces && Gateway(s.cidr) in spaces[vpcs[s.vpc].index]
  }

  ghost predicate AvailablePlumbed(vpcs: map<Id, Vpc>, subnets: map<Id, Subnet>, spaces: map<Index, set<nat>>) {
    forall s {:trigger GateUp(vpcs, spaces, subnets[s])} ::
      s in subnets && subnets[s].state == Available ==> GateUp(vpcs, spaces, subnets[s])
  }

  ghost predicate NetInv(issued: seq<Id>, vpcs: map<Id, Vpc>, subnets: map<Id, Subnet>,
                         spaces: map<Index, set<nat>>, net: NetPc) {
    SpacesIssued(issued, spaces) && NetPcOk(vpcs, subnets, spaces, net) &&
    GatewaysOwned(vpcs, subnets, spaces, net) && AvailablePlumbed(vpcs, subnets, spaces)
  }
}
