/** Every step keeps the container invariant. */
module BoxProofs {
  import opened Ipv4
  import opened Rows
  import opened StoreInvariant
  import opened Machine
  import opened NetInvariant
  import opened BoxInvariant

  // ---- Changes of the network underneath ----

  predicate SubnetAnchored(a: Net, b: Net, c: Id)
    requires c in a.subnets
  {
    var s := a.subnets[c];
    c in b.subnets && b.subnets[c].vpc == s.vpc && b.subnets[c].cidr == s.cidr &&
    (s.vpc in a.vpcs ==>
      s.vpc in b.vpcs && b.vpcs[s.vpc].index == a.vpcs[s.vpc].index &&
      (a.vpcs[s.vpc].index in a.spaces ==> a.vpcs[s.vpc].index in b.spaces) &&
      (GateUp(a.vpcs, a.spaces, s) ==> GateUp(b.vpcs, b.spaces, b.subnets[c])))
  }

  /** Every subnet not marked for deletion stays, in the same place, with its gateway. */
  ghost predicate Anchored(a: Net, b: Net) {
    forall c {:trigger SubnetAnchored(a, b, c)} :: c in a.subnets && !a.subnets[c].deleting ==> SubnetAnchored(a, b, c)
  }

  lemma AnchorBoxes(issued: seq<Id>, more: seq<Id>, instances: map<Id, Instance>, a: Net, b: Net, links: set<Link>,
                    boxes: map<Id, Box>, minted: map<RuntimeId, Id>)
    requires Anchored(a, b) && InstanceRefs(a.subnets, instances) && issued <= more
    requires BoxesOk(issued, instances, a, links, boxes, minted)
    ensures BoxesOk(more, instances, b, links, boxes, minted)
  {
    forall i | i in boxes && i in instances ensures BoxOk(b, links, i, instances[i], boxes[i]) {
      assert BoxOk(a, links, i, instances[i], boxes[i]);
      assert SubnetAnchored(a, b, instances[i].subnet);
    }
  }

  lemma AnchorLinks(instances: map<Id, Instance>, a: Net, b: Net, links: set<Link>)
    requires Anchored(a, b) && InstanceRefs(a.subnets, instances) && LinksOk(instances, a, links)
    ensures LinksOk(instances, b, links)
  {
    forall l | l in links ensures LinkOk(instances, b, l) {
      assert LinkOk(instances, a, l);
      assert SubnetAnchored(a, b, instances[l.owner].subnet);
    }
  }

  lemma AnchorPc(instances: map<Id, Instance>, a: Net, b: Net, links: set<Link>, boxes: map<Id, Box>, lost: set<Id>,
                 inst: InstPc)
    requires Anchored(a, b) && InstanceRefs(a.subnets, instances)
    requires InstPcOk(instances, a, links, boxes, lost, inst)
    ensures InstPcOk(instances, b, links, boxes, lost, inst)
  {
    if inst.HookChecked? || inst.HookPlumbed? || inst.HookPassed? || inst.EniSubnet? || inst.EniVpc? {
      assert SubnetAnchored(a, b, instances[inst.id].subnet);
    }
  }

  lemma AnchorKeeps(issued: seq<Id>, more: seq<Id>, instances: map<Id, Instance>, a: Net, b: Net, links: set<Link>,
                    boxes: map<Id, Box>, minted: map<RuntimeId, Id>, lost: set<Id>, inst: InstPc)
    requires Anchored(a, b) && InstanceRefs(a.subnets, instances) && issued <= more
    requires BoxInv(issued, instances, a, links, boxes, minted, lost, inst)
    ensures BoxInv(more, instances, b, links, boxes, minted, lost, inst)
  {
    AnchorBoxes(issued, more, instances, a, b, links, boxes, minted);
    AnchorLinks(instances, a, b, links);
    AnchorPc(instances, a, b, links, boxes, lost, inst);
  }

  // ---- Changes of the instance rows by the API ----

  lemma MoveBoxes(issued: seq<Id>, instances: map<Id, Instance>, after: map<Id, Instance>, net: Net,
                  links: set<Link>, boxes: map<Id, Box>, minted: map<RuntimeId, Id>)
    requires InstancesMove(issued, instances, after) && BoxesOk(issued, instances, net, links, boxes, minted)
    ensures BoxesOk(issued, after, net, links, boxes, minted)
  {
    forall i | i in boxes && i in after ensures BoxOk(net, links, i, after[i], boxes[i]) {
      assert i in instances;
      assert BoxOk(net, links, i, instances[i], boxes[i]);
    }
  }

  lemma MoveLinks(issued: seq<Id>, instances: map<Id, Instance>, after: map<Id, Instance>, net: Net, links: set<Link>)
    requires InstancesMove(issued, instances, after) && LinksOk(instances, net, links)
    ensures LinksOk(after, net, links)
  {
    forall l | l in links ensures LinkOk(after, net, l) {
      assert LinkOk(instances, net, l);
    }
  }

  lemma MovePc(issued: seq<Id>, instances: map<Id, Instance>, after: map<Id, Instance>, net: Net, links: set<Link>,
               boxes: map<Id, Box>, lost: set<Id>, inst: InstPc)
    requires InstancesMove(issued, instances, after) && InstPcOk(instances, net, links, boxes, lost, inst)
    ensures InstPcOk(after, net, links, boxes, lost, inst)
  {}

  lemma MoveKeeps(issued: seq<Id>, instances: map<Id, Instance>, after: map<Id, Instance>, net: Net,
                  links: set<Link>, boxes: map<Id, Box>, minted: map<RuntimeId, Id>, lost: set<Id>, inst: InstPc)
    requires InstancesMove(issued, instances, after) && BoxInv(issued, instances, net, links, boxes, minted, lost, inst)
    ensures BoxInv(issued, after, net, links, boxes, minted, lost, inst)
  {
    MoveBoxes(issued, instances, after, net, links, boxes, minted);
    MoveLinks(issued, instances, after, net, links);
    MovePc(issued, instances, after, net, links, boxes, lost, inst);
  }

  // ---- Changes of one instance row by the reconciler ----

  predicate SamePlace(a: Instance, b: Instance) {
    a.subnet == b.subnet && a.eni.index == b.eni.index && (a.runtime.Some? ==> b.runtime == a.runtime)
  }

  lemma RowBoxes(issued: seq<Id>, instances: map<Id, Instance>, net: Net, links: set<Link>, boxes: map<Id, Box>,
                 minted: map<RuntimeId, Id>, id: Id, row: Instance)
    requires BoxesOk(issued, instances, net, links, boxes, minted) && id in instances && SamePlace(instances[id], row)
    requires row.runtime.Some? ==> MintedFor(minted, row.runtime.value, id)
    requires id in boxes && row.runtime.Some? ==> row.runtime.value == boxes[id].rid
    ensures BoxesOk(issued, instances[id := row], net, links, boxes, minted)
  {
    var after := instances[id := row];
    forall i | i in boxes && i in after ensures BoxOk(net, links, i, after[i], boxes[i]) {
      assert BoxOk(net, links, i, instances[i], boxes[i]);
    }
  }

  lemma RowLinks(instances: map<Id, Instance>, net: Net, links: set<Link>, id: Id, row: Instance)
    requires LinksOk(instances, net, links) && id in instances && SamePlace(instances[id], row)
    ensures LinksOk(instances[id := row], net, links)
  {
    forall l | l in links ensures LinkOk(instances[id := row], net, l) {
      assert LinkOk(instances, net, l);
    }
  }

  // ---- Changes of the containers ----

  lemma DropBox(issued: seq<Id>, instances: map<Id, Instance>, net: Net, links: set<Link>, boxes: map<Id, Box>,
                minted: map<RuntimeId, Id>, id: Id, rid: RuntimeId)
    requires BoxesOk(issued, instances, net, links, boxes, minted) && RuntimesExist(instances, boxes)
    requires id in instances && instances[id].deleting && instances[id].state != Running &&
             instances[id].runtime == Some(rid)
    ensures BoxesOk(issued, instances, net, links, WithoutBox(boxes, rid), minted)
    ensures RuntimesExist(instances, WithoutBox(boxes, rid))
    ensures id !in WithoutBox(boxes, rid)
  {
    var after := WithoutBox(boxes, rid);
    forall i | i in after && i in instances ensures BoxOk(net, links, i, instances[i], after[i]) {
      assert BoxOk(net, links, i, instances[i], boxes[i]);
    }
    // Another instance's container carries another runtime id.
    assert forall i :: i in boxes && i != id ==> boxes[i].rid != rid;
  }

  lemma PutBox(issued: seq<Id>, instances: map<Id, Instance>, net: Net, links: set<Link>, boxes: map<Id, Box>,
               minted: map<RuntimeId, Id>, id: Id, box: Box)
    requires BoxesOk(issued, instances, net, links, boxes, minted)
    requires id in issued && MintedFor(minted, box.rid, id) && Grown(box)
    requires id in instances ==> BoxOk(net, links, id, instances[id], box)
    ensures BoxesOk(issued, instances, net, links, boxes[id := box], minted)
  {
    var after := boxes[id := box];
    forall i | i in after && i in instances ensures BoxOk(net, links, i, instances[i], after[i]) {
      assert i != id ==> BoxOk(net, links, i, instances[i], boxes[i]);
    }
  }

  lemma MoreMinted(issued: seq<Id>, instances: map<Id, Instance>, net: Net, links: set<Link>, boxes: map<Id, Box>,
                   minted: map<RuntimeId, Id>, rid: RuntimeId, id: Id)
    requires BoxesOk(issued, instances, net, links, boxes, minted) && rid !in minted
    ensures BoxesOk(issued, instances, net, links, boxes, minted[rid := id])
  {
    forall i | i in boxes && i in instances ensures BoxOk(net, links, i, instances[i], boxes[i]) {}
  }

  predicate BoxGrows(a: Box, b: Box) {
    a.rid == b.rid && (a.plumbed ==> b.plumbed) && (a.started ==> b.started)
  }

  lemma GrowPc(instances: map<Id, Instance>, net: Net, links: set<Link>, boxes: map<Id, Box>, lost: set<Id>,
               inst: InstPc, id: Id, box: Box)
    requires InstPcOk(instances, net, links, boxes, lost, inst) && id in boxes && BoxGrows(boxes[id], box)
    ensures InstPcOk(instances, net, links, boxes[id := box], lost, inst)
  {}

  lemma GrowKeeps(issued: seq<Id>, instances: map<Id, Instance>, net: Net, links: set<Link>, boxes: map<Id, Box>,
                  minted: map<RuntimeId, Id>, lost: set<Id>, inst: InstPc, id: Id, box: Box)
    requires BoxInv(issued, instances, net, links, boxes, minted, lost, inst)
    requires id in boxes && BoxGrows(boxes[id], box) && Grown(box)
    requires if id in instances then BoxOk(net, links, id, instances[id], box) else !box.plumbed
    ensures BoxInv(issued, instances, net, links, boxes[id := box], minted, lost, inst)
  {
    PutBox(issued, instances, net, links, boxes, minted, id, box);
    GrowPc(instances, net, links, boxes, lost, inst, id, box);
    assert RuntimesExist(instances, boxes[id := box]);
  }
}
