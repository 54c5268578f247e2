/** What holds of the instance rows, the containers, the links and the instance reconciler's pass in
    every reachable state. */
module BoxInvariant {
  import opened Ipv4
  import opened Rows
  import opened Machine
  import opened NetInvariant

  /** The parts of the network an instance stands on. */
  datatype Net = Net(vpcs: map<Id, Vpc>, subnets: map<Id, Subnet>, spaces: map<Index, set<nat>>)

  predicate AtHome(net: Net, row: Instance, k: Index) {
    row.subnet in net.subnets && net.subnets[row.subnet].vpc in net.vpcs &&
      net.vpcs[net.subnets[row.subnet].vpc].index == k
  }

  predicate OnSubnet(net: Net, row: Instance, s: Subnet) {
    row.subnet in net.subnets && net.subnets[row.subnet].vpc == s.vpc && net.subnets[row.subnet].cidr == s.cidr
  }

  /** The gateway of the instance's subnet is up. */
  predicate Based(net: Net, row: Instance) {
    row.subnet in net.subnets && GateUp(net.vpcs, net.spaces, net.subnets[row.subnet])
  }

  /** The instance's link is in its VPC's namespace, and its subnet's gateway is up there. */
  predicate Wired(net: Net, links: set<Link>, id: Id, row: Instance) {
    Based(net, row) && Link(net.vpcs[net.subnets[row.subnet].vpc].index, row.eni.index, id) in links
  }

  /** A plumbed container is named by its row and its gateway is up; while it runs, so is its link. */
  predicate BoxOk(net: Net, links: set<Link>, id: Id, row: Instance, box: Box) {
    && (row.runtime.Some? ==> row.runtime.value == box.rid)
    && (box.plumbed ==> row.runtime.Some? && Based(net, row))
    && (box.running ==> Wired(net, links, id, row))
  }

  predicate MintedFor(minted: map<RuntimeId, Id>, rid: RuntimeId, id: Id) {
    rid in minted && minted[rid] == id
  }

  predicate Grown(box: Box) {
    (box.running ==> box.started) && (box.started ==> box.plumbed)
  }

  ghost predicate BoxesOk(issued: seq<Id>, instances: map<Id, Instance>, net: Net, links: set<Link>,
                          boxes: map<Id, Box>, minted: map<RuntimeId, Id>) {
    && (forall i :: i in boxes ==> i in issued && MintedFor(minted, boxes[i].rid, i) && Grown(boxes[i]))
    && (forall i :: i in instances && instances[i].runtime.Some? ==> MintedFor(minted, instances[i].runtime.value, i))
    && (forall i {:trigger BoxOk(net, links, i, instances[i], boxes[i])} ::
          i in boxes && i in instances ==> BoxOk(net, links, i, instances[i], boxes[i]))
  }

  /** A live row with a runtime id has its container; a row that says running has a started one. */
  ghost predicate RuntimesExist(instances: map<Id, Instance>, boxes: map<Id, Box>) {
    forall i :: i in instances ==>
      (!instances[i].deleting && instances[i].runtime.Some? ==> i in boxes) &&
      (instances[i].state == Running ==> i in boxes && boxes[i].started)
  }

  /** The moment between Create and the commit that records or retains the runtime id. */
  predicate InWindow(inst: InstPc, i: Id) {
    (inst.CreatedBox? || inst.StaleBox?) && inst.id == i
  }

  /** A container is named by its row, or the pass that made it is about to commit its id, or it is
      lost; the lost ones are exactly containers no row names, and one without a row was never plumbed. */
  ghost predicate Tracked(instances: map<Id, Instance>, boxes: map<Id, Box>, lost: set<Id>, inst: InstPc) {
    && (forall i :: i in boxes ==> NamesBox(instances, i) || (i in instances && InWindow(inst, i)) || i in lost)
    && (forall i :: i in lost ==> i in boxes && !NamesBox(instances, i))
    && (forall i :: i in boxes && i !in instances ==> !boxes[i].plumbed)
  }

  predicate LinkOk(instances: map<Id, Instance>, net: Net, l: Link) {
    l.owner in instances && l.port == instances[l.owner].eni.index && l.space in net.spaces &&
    AtHome(net, instances[l.owner], l.space)
  }

  ghost predicate LinksOk(instances: map<Id, Instance>, net: Net, links: set<Link>) {
    forall l {:trigger LinkOk(instances, net, l)} :: l in links ==> LinkOk(instances, net, l)
  }

  ghost predicate Held(instances: map<Id, Instance>, id: Id, snap: Instance) {
    id in instances && InstanceDrift(snap, instances[id])
  }

  ghost predicate HasBox(boxes: map<Id, Box>, id: Id, rid: RuntimeId) {
    id in boxes && boxes[id].rid == rid
  }

  ghost predicate LaunchOk(instances: map<Id, Instance>, boxes: map<Id, Box>, id: Id, snap: Instance) {
    Held(instances, id, snap) && !snap.deleting && (snap.runtime.Some? ==> id in boxes)
  }

  ghost predicate StartingOk(instances: map<Id, Instance>, boxes: map<Id, Box>, id: Id, snap: Instance,
                             rid: RuntimeId) {
    Held(instances, id, snap) && !snap.deleting && snap.runtime == Some(rid) && HasBox(boxes, id, rid)
  }

  /** The container of a row being torn down is gone, unless an earlier pass lost track of it. */
  ghost predicate TornDown(instances: map<Id, Instance>, boxes: map<Id, Box>, lost: set<Id>, id: Id, snap: Instance) {
    id in instances && instances[id] == snap && snap.deleting && (id in boxes ==> id in lost && snap.runtime.None?)
  }

  ghost predicate InstPcOk(instances: map<Id, Instance>, net: Net, links: set<Link>, boxes: map<Id, Box>,
                           lost: set<Id>, inst: InstPc) {
    match inst
    case InstIdle => true
    case Loaded(id, snap) => LaunchOk(instances, boxes, id, snap)
    case SubnetRead(id, snap, _) => LaunchOk(instances, boxes, id, snap)
    case Checked(id, snap) => LaunchOk(instances, boxes, id, snap)
    case Creating(id, snap) => LaunchOk(instances, boxes, id, snap)
    case CreatedBox(id, snap, rid) => Held(instances, id, snap) && !snap.deleting && HasBox(boxes, id, rid)
    case StaleBox(id, snap, rid) => id in instances && instances[id].deleting && HasBox(boxes, id, rid)
    case CleaningUp(id, rid, _) => id in instances && instances[id].deleting && instances[id].runtime == Some(rid)
    case CleanupFailed(id, _) => id in instances
    case Recorded(id, rid) => id in instances && instances[id].runtime == Some(rid) && HasBox(boxes, id, rid)
    case Starting(id, snap, rid) => StartingOk(instances, boxes, id, snap, rid)
    case HookChecked(id, snap, rid, seen, subnet, vpc) =>
      StartingOk(instances, boxes, id, snap, rid) && StartingOk(instances, boxes, id, seen, rid) &&
      OnSubnet(net, seen, subnet) && AtHome(net, seen, vpc.index)
    case HookPlumbed(id, snap, rid, seen) =>
      StartingOk(instances, boxes, id, snap, rid) && boxes[id].plumbed && Wired(net, links, id, snap)
    case HookPassed(id, snap, rid) =>
      StartingOk(instances, boxes, id, snap, rid) && boxes[id].plumbed && Wired(net, links, id, snap)
    case Started(id, snap, rid) => StartingOk(instances, boxes, id, snap, rid) && boxes[id].started
    case Observing(id, snap) => Held(instances, id, snap) && !snap.deleting && snap.runtime.Some? && id in boxes &&
      boxes[id].started
    case Removing(id, snap) => id in instances && instances[id] == snap && snap.deleting
    case BoxGone(id, snap) => TornDown(instances, boxes, lost, id, snap)
    case EniSubnet(id, snap, subnet) => TornDown(instances, boxes, lost, id, snap) && OnSubnet(net, snap, subnet)
    case EniVpc(id, snap, vpc) => TornDown(instances, boxes, lost, id, snap) && AtHome(net, snap, vpc.index)
    case Finishing(id, snap) => TornDown(instances, boxes, lost, id, snap) && forall l :: l in links ==> l.owner != id
    case Failing(id, snap, _) => true
  }

  ghost predicate BoxInv(issued: seq<Id>, instances: map<Id, Instance>, net: Net, links: set<Link>, boxes: map<Id, Box>,
                         minted: map<RuntimeId, Id>, lost: set<Id>, inst: InstPc) {
    BoxesOk(issued, instances, net, links, boxes, minted) && RuntimesExist(instances, boxes) &&
    Tracked(instances, boxes, lost, inst) && LinksOk(instances, net, links) &&
    InstPcOk(instances, net, links, boxes, lost, inst)
  }

  function NetOf(s: Sys): Net { Net(s.db.vpcs, s.db.subnets, s.spaces) }

  ghost predicate BoxesInv(s: Sys) {
    BoxInv(s.db.issued, s.db.instances, NetOf(s), s.links, s.boxes, s.minted, s.lost, s.inst)
  }
}
