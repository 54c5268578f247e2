/** The steps of the instance reconciler and the hook, one by one. */
module BoxSteps {
  import opened Ipv4
  import opened Rows
  import opened Transactions
  import opened StoreInvariant
  import opened StoreProofs
  import opened Machine
  import opened BoxInvariant
  import opened BoxProofs

  predicate OutsideWindow(inst: InstPc) {
    !inst.CreatedBox? && !inst.StaleBox?
  }

  ghost predicate PcFits(s: Sys, inst: InstPc) {
    InstPcOk(s.db.instances, NetOf(s), s.links, s.boxes, s.lost, inst)
  }

  lemma PcOnly(s: Sys, next: InstPc)
    requires BoxesInv(s) && OutsideWindow(s.inst) && PcFits(s, next)
    ensures BoxesInv(s.(inst := next))
  {}

  // ---- Launch ----

  lemma InstLoadKeeps(s: Sys, id: Id)
    requires BoxesInv(s)
    ensures BoxesInv(InstLoadStep(s, id))
  {
    if s.inst.InstIdle? {
      PcOnly(s, InstLoadStep(s, id).inst);
    }
  }

  lemma ReadSubnetKeeps(s: Sys)
    requires BoxesInv(s)
    ensures BoxesInv(ReadSubnetStep(s))
  {
    if s.inst.Loaded? {
      PcOnly(s, ReadSubnetStep(s).inst);
    }
  }

  lemma ReadVpcKeeps(s: Sys)
    requires BoxesInv(s)
    ensures BoxesInv(ReadVpcStep(s))
  {
    if s.inst.SubnetRead? {
      PcOnly(s, ReadVpcStep(s).inst);
    }
  }

  lemma InspectRunningKeeps(s: Sys, outcome: Outcome)
    requires BoxesInv(s)
    ensures BoxesInv(InspectRunningStep(s, outcome))
  {
    if s.inst.Checked? {
      PcOnly(s, InspectRunningStep(s, outcome).inst);
    }
  }

  /** A container is made only for an instance that has none, so its row has no runtime id yet. */
  lemma NewBox(s: Sys, rid: RuntimeId)
    requires BoxesInv(s) && InstanceRows(s.db.issued, s.db.instances) && s.inst.Creating? &&
             s.inst.id !in s.boxes && rid !in s.minted
    ensures BoxesInv(CreateBoxStep(s, Fine, rid))
  {
    var id, box := s.inst.id, Box(rid, false, false, false);
    assert InstanceOk(s.db.issued, id, s.db.instances[id]);
    MoreMinted(s.db.issued, s.db.instances, NetOf(s), s.links, s.boxes, s.minted, rid, id);
    PutBox(s.db.issued, s.db.instances, NetOf(s), s.links, s.boxes, s.minted[rid := id], id, box);
    assert RuntimesExist(s.db.instances, s.boxes[id := box]);
  }

  lemma CreateBoxKeeps(s: Sys, outcome: Outcome, rid: RuntimeId)
    requires BoxesInv(s) && InstanceRows(s.db.issued, s.db.instances)
    ensures BoxesInv(CreateBoxStep(s, outcome, rid))
  {
    if s.inst.Creating? {
      if outcome.Fails? || s.inst.id in s.boxes {
        PcOnly(s, CreateBoxStep(s, outcome, rid).inst);
      } else if rid !in s.minted {
        NewBox(s, rid);
      }
    }
  }

  /** A refused record means the row was marked for termination in between. */
  lemma StaleMeansTerminating(s: Sys)
    requires BoxesInv(s) && s.inst.CreatedBox?
    requires !RecordRuntimeTx(s.db, s.inst.id, s.inst.snap.gen, s.inst.rid).Committed?
    ensures s.inst.id in s.db.instances && s.db.instances[s.inst.id].deleting
  {
    assert BoxOk(NetOf(s), s.links, s.inst.id, s.db.instances[s.inst.id], s.boxes[s.inst.id]);
  }

  lemma RecordBoxKeeps(s: Sys)
    requires BoxesInv(s)
    ensures BoxesInv(RecordBoxStep(s))
  {
    if s.inst.CreatedBox? {
      var id, rid := s.inst.id, s.inst.rid;
      if RecordRuntimeTx(s.db, id, s.inst.snap.gen, rid).Committed? {
        NamingKeeps(s, id, rid, Recorded(id, rid));
      } else {
        StaleMeansTerminating(s);
      }
    }
  }

  /** The row comes to name its container, which is found again if it was lost. */
  lemma NamingKeeps(s: Sys, id: Id, rid: RuntimeId, next: InstPc)
    requires BoxesInv(s) && InWindow(s.inst, id) && s.inst.rid == rid && id in s.db.instances &&
             HasBox(s.boxes, id, rid)
    requires s.db.instances[id].runtime.None? || s.db.instances[id].runtime == Some(rid)
    requires next == Recorded(id, rid) || (next == CleaningUp(id, rid, true) && s.db.instances[id].deleting)
    ensures
      var rows := s.db.instances[id := s.db.instances[id].(runtime := Some(rid))];
      BoxesInv(s.(db := s.db.(instances := rows), inst := next, lost := s.lost - {id}))
  {
    var row := s.db.instances[id].(runtime := Some(rid));
    assert BoxOk(NetOf(s), s.links, id, s.db.instances[id], s.boxes[id]);
    RowBoxes(s.db.issued, s.db.instances, NetOf(s), s.links, s.boxes, s.minted, id, row);
    RowLinks(s.db.instances, NetOf(s), s.links, id, row);
    NamingTracks(s.db.instances, s.boxes, s.lost, s.inst, id, row, next);
  }

  lemma NamingTracks(instances: map<Id, Instance>, boxes: map<Id, Box>, lost: set<Id>, inst: InstPc, id: Id,
                     row: Instance, next: InstPc)
    requires Tracked(instances, boxes, lost, inst) && InWindow(inst, id) && id in instances && row.runtime.Some?
    requires !InWindow(next, id)
    ensures Tracked(instances[id := row], boxes, lost - {id}, next)
  {}

  lemma RetainBoxKeeps(s: Sys)
    requires BoxesInv(s)
    ensures BoxesInv(RetainBoxStep(s))
  {
    if s.inst.StaleBox? {
      var id, rid := s.inst.id, s.inst.rid;
      assert BoxOk(NetOf(s), s.links, id, s.db.instances[id], s.boxes[id]);
      if RetainRuntimeTx(s.db, id, rid).Committed? {
        NamingKeeps(s, id, rid, CleaningUp(id, rid, true));
      }
    }
  }

  /** Deleting the container of a row that is being torn down. */
  lemma DropKeeps(s: Sys, id: Id, rid: RuntimeId, next: InstPc)
    requires BoxesInv(s) && InstanceRows(s.db.issued, s.db.instances) && OutsideWindow(s.inst)
    requires id in s.db.instances && s.db.instances[id].deleting && s.db.instances[id].runtime == Some(rid)
    requires id !in WithoutBox(s.boxes, rid) ==> PcFits(s.(boxes := WithoutBox(s.boxes, rid)), next)
    ensures BoxesInv(s.(boxes := WithoutBox(s.boxes, rid), inst := next))
  {
    assert InstanceOk(s.db.issued, id, s.db.instances[id]);
    DropBox(s.db.issued, s.db.instances, NetOf(s), s.links, s.boxes, s.minted, id, rid);
  }

  lemma CleanUpKeeps(s: Sys, outcome: Outcome, gone: bool)
    requires BoxesInv(s) && InstanceRows(s.db.issued, s.db.instances)
    ensures BoxesInv(CleanUpStep(s, outcome, gone))
  {
    if s.inst.CleaningUp? {
      var next := CleanUpStep(s, outcome, gone).inst;
      if outcome.Fine? || gone {
        DropKeeps(s, s.inst.id, s.inst.rid, next);
      } else {
        PcOnly(s, next);
      }
    }
  }

  lemma ReloadFailedKeeps(s: Sys)
    requires BoxesInv(s)
    ensures BoxesInv(ReloadFailedStep(s))
  {
    if s.inst.CleanupFailed? {
      PcOnly(s, ReloadFailedStep(s).inst);
    }
  }

  lemma ReloadKeeps(s: Sys)
    requires BoxesInv(s)
    ensures BoxesInv(ReloadStep(s))
  {
    if s.inst.Recorded? {
      PcOnly(s, ReloadStep(s).inst);
    }
  }

  // ---- Start and the hook inside it ----

  lemma HookCheckKeeps(s: Sys)
    requires BoxesInv(s)
    ensures BoxesInv(HookCheckStep(s))
  {
    if s.inst.Starting? {
      PcOnly(s, HookCheckStep(s).inst);
    }
  }

  lemma AddLink(s: Sys, link: Link)
    requires BoxesInv(s) && LinkOk(s.db.instances, NetOf(s), link) && !s.inst.Finishing?
    ensures BoxesInv(s.(links := s.links + {link}))
  {
    var more := s.links + {link};
    forall i | i in s.boxes && i in s.db.instances ensures BoxOk(NetOf(s), more, i, s.db.instances[i], s.boxes[i]) {
      assert BoxOk(NetOf(s), s.links, i, s.db.instances[i], s.boxes[i]);
    }
    forall l | l in more ensures LinkOk(s.db.instances, NetOf(s), l) {
      assert l != link ==> LinkOk(s.db.instances, NetOf(s), l);
    }
  }

  lemma HookPlumbKeeps(s: Sys, outcome: Outcome, stays: bool)
    requires BoxesInv(s)
    ensures BoxesInv(HookPlumbStep(s, outcome, stays))
  {
    if s.inst.HookChecked? {
      if outcome.Fine? {
        if PlumbReady(s, s.inst.subnet, s.inst.vpc) {
          PlumbedKeeps(s);
        }
      } else {
        PlumbFailedKeeps(s, outcome.cause, stays);
      }
    }
  }

  lemma HookLinkOk(s: Sys)
    requires BoxesInv(s) && s.inst.HookChecked? && s.inst.vpc.index in s.spaces
    ensures LinkOk(s.db.instances, NetOf(s), Link(s.inst.vpc.index, s.inst.seen.eni.index, s.inst.id))
  {}

  lemma PlumbFailedKeeps(s: Sys, cause: string, stays: bool)
    requires BoxesInv(s) && s.inst.HookChecked?
    ensures BoxesInv(HookPlumbStep(s, Fails(cause), stays))
  {
    var link := Link(s.inst.vpc.index, s.inst.seen.eni.index, s.inst.id);
    var next := Failing(s.inst.id, s.inst.snap, cause);
    if stays && s.inst.vpc.index in s.spaces {
      HookLinkOk(s);
      AddLink(s, link);
      PcOnly(s.(links := s.links + {link}), next);
    } else {
      PcOnly(s, next);
    }
  }

  lemma PlumbedKeeps(s: Sys)
    requires BoxesInv(s) && s.inst.HookChecked? && PlumbReady(s, s.inst.subnet, s.inst.vpc)
    ensures BoxesInv(HookPlumbStep(s, Fine, false)) && BoxesInv(HookPlumbStep(s, Fine, true))
  {
    var id := s.inst.id;
    var link := Link(s.inst.vpc.index, s.inst.seen.eni.index, id);
    var box := s.boxes[id].(plumbed := true);
    var t := s.(links := s.links + {link});
    HookLinkOk(s);
    AddLink(s, link);
    assert BoxOk(NetOf(t), t.links, id, t.db.instances[id], s.boxes[id]);
    assert Wired(NetOf(t), t.links, id, t.db.instances[id]);
    GrowKeeps(t.db.issued, t.db.instances, NetOf(t), t.links, t.boxes, t.minted, t.lost, t.inst, id, box);
    PcOnly(t.(boxes := t.boxes[id := box]), HookPlumbed(id, s.inst.snap, s.inst.rid, s.inst.seen));
  }

  lemma HookRecheckKeeps(s: Sys)
    requires BoxesInv(s)
    ensures BoxesInv(HookRecheckStep(s))
  {
    if s.inst.HookPlumbed? {
      PcOnly(s, HookRecheckStep(s).inst);
    }
  }

  /** Only a container the hook has plumbed is ever started. */
  lemma StartBoxKeeps(s: Sys, outcome: Outcome)
    requires BoxesInv(s)
    ensures BoxesInv(StartBoxStep(s, outcome))
  {
    if s.inst.Starting? || s.inst.HookPassed? {
      if outcome.Fails? {
        PcOnly(s, StartBoxStep(s, outcome).inst);
      } else if s.inst.HookPassed? || s.boxes[s.inst.id].running {
        StartedKeeps(s);
      }
    }
  }

  lemma StartedBoxOk(s: Sys)
    requires BoxesInv(s) && (s.inst.HookPassed? || (s.inst.Starting? && s.boxes[s.inst.id].running))
    ensures
      var id := s.inst.id;
      && id in s.db.instances && id in s.boxes && s.boxes[id].plumbed
      && BoxOk(NetOf(s), s.links, id, s.db.instances[id], s.boxes[id].(started := true, running := true))
  {
    assert BoxOk(NetOf(s), s.links, s.inst.id, s.db.instances[s.inst.id], s.boxes[s.inst.id]);
  }

  function StartedBoxes(s: Sys): map<Id, Box>
    requires s.inst.HookPassed? || s.inst.Starting?
  {
    if s.inst.id in s.boxes then s.boxes[s.inst.id := s.boxes[s.inst.id].(started := true, running := true)]
      else s.boxes
  }

  lemma StartedGrows(s: Sys)
    requires BoxesInv(s) && (s.inst.HookPassed? || (s.inst.Starting? && s.boxes[s.inst.id].running))
    ensures BoxesInv(s.(boxes := StartedBoxes(s)))
  {
    var id := s.inst.id;
    StartedBoxOk(s);
    GrowKeeps(s.db.issued, s.db.instances, NetOf(s), s.links, s.boxes, s.minted, s.lost, s.inst, id,
              s.boxes[id].(started := true, running := true));
  }

  lemma StartedKeeps(s: Sys)
    requires BoxesInv(s) && (s.inst.HookPassed? || (s.inst.Starting? && s.boxes[s.inst.id].running))
    ensures BoxesInv(StartBoxStep(s, Fine))
  {
    StartedGrows(s);
    PcOnly(s.(boxes := StartedBoxes(s)), Started(s.inst.id, s.inst.snap, s.inst.rid));
  }

  lemma InspectStartedKeeps(s: Sys, outcome: Outcome)
    requires BoxesInv(s)
    ensures BoxesInv(InspectStartedStep(s, outcome))
  {
    if s.inst.Started? {
      PcOnly(s, InspectStartedStep(s, outcome).inst);
    }
  }

  lemma StatusKeeps(s: Sys, id: Id, snap: Instance, state: InstanceState, reason: string, observed: bool)
    requires BoxesInv(s) && OutsideWindow(s.inst)
    requires RecordInstanceTx(s.db, id, snap, state, reason, observed).Committed?
    requires state == Running ==> id in s.boxes && s.boxes[id].started
    ensures BoxesInv(s.(db := RecordInstanceTx(s.db, id, snap, state, reason, observed).db, inst := InstIdle))
  {
    RecordInstanceShape(s.db, id, snap, state, reason, observed);
    var row := SettleInstance(s.db.instances[id], state, reason, observed);
    assert id in s.boxes ==> BoxOk(NetOf(s), s.links, id, s.db.instances[id], s.boxes[id]);
    RowBoxes(s.db.issued, s.db.instances, NetOf(s), s.links, s.boxes, s.minted, id, row);
    RowLinks(s.db.instances, NetOf(s), s.links, id, row);
  }

  lemma ObserveKeeps(s: Sys)
    requires BoxesInv(s)
    ensures BoxesInv(ObserveStep(s))
  {
    if s.inst.Observing? {
      if RecordInstanceTx(s.db, s.inst.id, s.inst.snap, Running, "", true).Committed? {
        StatusKeeps(s, s.inst.id, s.inst.snap, Running, "", true);
      } else {
        PcOnly(s, InstIdle);
      }
    }
  }

  lemma RecordFailureKeeps(s: Sys)
    requires BoxesInv(s)
    ensures BoxesInv(RecordFailureStep(s))
  {
    if s.inst.Failing? {
      if RecordInstanceTx(s.db, s.inst.id, s.inst.snap, Broken, s.inst.cause, false).Committed? {
        StatusKeeps(s, s.inst.id, s.inst.snap, Broken, s.inst.cause, false);
      } else {
        PcOnly(s, InstIdle);
      }
    }
  }

  // ---- Termination ----

  lemma BoxDeleted(s: Sys)
    requires BoxesInv(s) && InstanceRows(s.db.issued, s.db.instances) && s.inst.Removing?
    ensures BoxesInv(DeleteBoxStep(s, Fine, true)) && BoxesInv(DeleteBoxStep(s, Fine, false))
  {
    var id, snap := s.inst.id, s.inst.snap;
    if snap.runtime.None? {
      PcOnly(s, BoxGone(id, snap));
    } else {
      DropKeeps(s, id, snap.runtime.value, BoxGone(id, snap));
    }
  }

  lemma BoxNotDeleted(s: Sys, cause: string, gone: bool)
    requires BoxesInv(s) && InstanceRows(s.db.issued, s.db.instances) && s.inst.Removing? && s.inst.snap.runtime.Some?
    ensures BoxesInv(DeleteBoxStep(s, Fails(cause), gone))
  {
    var id, snap := s.inst.id, s.inst.snap;
    if gone {
      DropKeeps(s, id, snap.runtime.value, Failing(id, snap, cause));
    } else {
      PcOnly(s, Failing(id, snap, cause));
    }
  }

  lemma DeleteBoxKeeps(s: Sys, outcome: Outcome, gone: bool)
    requires BoxesInv(s) && InstanceRows(s.db.issued, s.db.instances)
    ensures BoxesInv(DeleteBoxStep(s, outcome, gone))
  {
    if s.inst.Removing? {
      if s.inst.snap.runtime.None? || outcome.Fine? {
        BoxDeleted(s);
      } else {
        BoxNotDeleted(s, outcome.cause, gone);
      }
    }
  }

  lemma TermSubnetKeeps(s: Sys)
    requires BoxesInv(s)
    ensures BoxesInv(TermSubnetStep(s))
  {
    if s.inst.BoxGone? {
      var id, snap := s.inst.id, s.inst.snap;
      if snap.subnet in s.db.subnets {
        PcOnly(s, EniSubnet(id, snap, s.db.subnets[snap.subnet]));
      } else {
        PcOnly(s, Failing(id, snap, "no subnet"));
      }
    }
  }

  lemma TermVpcKeeps(s: Sys)
    requires BoxesInv(s)
    ensures BoxesInv(TermVpcStep(s))
  {
    if s.inst.EniSubnet? {
      PcOnly(s, TermVpcStep(s).inst);
    }
  }

  /** An ENI index names one instance. */
  lemma SameEni(issued: seq<Id>, instances: map<Id, Instance>, i: Id, j: Id)
    requires InstanceRows(issued, instances) && i in instances && j in instances &&
             instances[i].eni.index == instances[j].eni.index
    ensures i == j
  {
    assert InstanceOk(issued, i, instances[i]) && InstanceOk(issued, j, instances[j]);
  }

  lemma DropLinks(s: Sys)
    requires BoxesInv(s) && InstanceRows(s.db.issued, s.db.instances) && s.inst.EniVpc?
    ensures
      var rest := WithoutLink(s.links, s.inst.vpc.index, s.inst.snap.eni.index);
      && BoxesOk(s.db.issued, s.db.instances, NetOf(s), rest, s.boxes, s.minted)
      && LinksOk(s.db.instances, NetOf(s), rest)
      && forall l :: l in rest ==> l.owner != s.inst.id
  {
    var rest := WithoutLink(s.links, s.inst.vpc.index, s.inst.snap.eni.index);
    var id := s.inst.id;
    forall l | l in rest ensures LinkOk(s.db.instances, NetOf(s), l) && l.owner != id {
      assert LinkOk(s.db.instances, NetOf(s), l);
    }
    forall i | i in s.boxes && i in s.db.instances ensures BoxOk(NetOf(s), rest, i, s.db.instances[i], s.boxes[i]) {
      assert BoxOk(NetOf(s), s.links, i, s.db.instances[i], s.boxes[i]);
      if s.db.instances[i].eni.index == s.inst.snap.eni.index {
        SameEni(s.db.issued, s.db.instances, i, id);
      }
    }
  }

  lemma WithFewerLinks(s: Sys, rest: set<Link>, next: InstPc)
    requires BoxesInv(s) && OutsideWindow(s.inst)
    requires BoxesOk(s.db.issued, s.db.instances, NetOf(s), rest, s.boxes, s.minted) &&
             LinksOk(s.db.instances, NetOf(s), rest)
    requires PcFits(s.(links := rest), next)
    ensures BoxesInv(s.(links := rest, inst := next))
  {}

  lemma EniDeleted(s: Sys)
    requires BoxesInv(s) && InstanceRows(s.db.issued, s.db.instances) && s.inst.EniVpc?
    ensures BoxesInv(DeleteEniStep(s, Fine, true)) && BoxesInv(DeleteEniStep(s, Fine, false))
  {
    var id, snap := s.inst.id, s.inst.snap;
    DropLinks(s);
    WithFewerLinks(s, WithoutLink(s.links, s.inst.vpc.index, snap.eni.index), Finishing(id, snap));
  }

  lemma EniNotDeleted(s: Sys, cause: string, gone: bool)
    requires BoxesInv(s) && InstanceRows(s.db.issued, s.db.instances) && s.inst.EniVpc?
    ensures BoxesInv(DeleteEniStep(s, Fails(cause), gone))
  {
    var id, snap := s.inst.id, s.inst.snap;
    if gone {
      DropLinks(s);
      WithFewerLinks(s, WithoutLink(s.links, s.inst.vpc.index, snap.eni.index), Failing(id, snap, cause));
    } else {
      PcOnly(s, Failing(id, snap, cause));
    }
  }

  lemma DeleteEniKeeps(s: Sys, outcome: Outcome, gone: bool)
    requires BoxesInv(s) && InstanceRows(s.db.issued, s.db.instances)
    ensures BoxesInv(DeleteEniStep(s, outcome, gone))
  {
    if s.inst.EniVpc? {
      if outcome.Fine? {
        EniDeleted(s);
      } else {
        EniNotDeleted(s, outcome.cause, gone);
      }
    }
  }

  lemma RowGone(issued: seq<Id>, instances: map<Id, Instance>, net: Net, links: set<Link>, boxes: map<Id, Box>,
                minted: map<RuntimeId, Id>, id: Id)
    requires BoxesOk(issued, instances, net, links, boxes, minted) && LinksOk(instances, net, links)
    requires forall l :: l in links ==> l.owner != id
    ensures BoxesOk(issued, instances - {id}, net, links, boxes, minted) && LinksOk(instances - {id}, net, links)
  {
    var rest := instances - {id};
    forall i | i in boxes && i in rest ensures BoxOk(net, links, i, rest[i], boxes[i]) {
      assert BoxOk(net, links, i, instances[i], boxes[i]);
    }
    forall l | l in links ensures LinkOk(rest, net, l) {
      assert LinkOk(instances, net, l);
    }
  }

  /** The row goes only once its link is gone, and its container with it. */
  lemma FinishKeeps(s: Sys)
    requires BoxesInv(s)
    ensures BoxesInv(FinishStep(s))
  {
    if s.inst.Finishing? {
      if FinishTerminationTx(s.db, s.inst.id, s.inst.snap).Committed? {
        assert s.inst.id in s.boxes ==> BoxOk(NetOf(s), s.links, s.inst.id, s.inst.snap, s.boxes[s.inst.id]);
        RowGone(s.db.issued, s.db.instances, NetOf(s), s.links, s.boxes, s.minted, s.inst.id);
      } else {
        PcOnly(s, InstIdle);
      }
    }
  }

  lemma InstCancelKeeps(s: Sys)
    requires BoxesInv(s)
    ensures BoxesInv(InstCancelStep(s))
  {}

  /** The links of a container that does not run, and that no hook is at work for, may go. */
  lemma OwnLinksGo(s: Sys, id: Id)
    requires BoxesInv(s) && !Hooking(s.inst, id) && (id in s.boxes ==> !s.boxes[id].running)
    ensures BoxesInv(s.(links := WithoutLinksOf(s.links, id)))
  {
    var rest := WithoutLinksOf(s.links, id);
    forall i | i in s.boxes && i in s.db.instances ensures BoxOk(NetOf(s), rest, i, s.db.instances[i], s.boxes[i]) {
      assert BoxOk(NetOf(s), s.links, i, s.db.instances[i], s.boxes[i]);
    }
    forall l | l in rest ensures LinkOk(s.db.instances, NetOf(s), l) {
      assert LinkOk(s.db.instances, NetOf(s), l);
    }
  }

  lemma BoxStops(s: Sys, id: Id)
    requires BoxesInv(s) && id in s.boxes
    ensures BoxesInv(s.(boxes := s.boxes[id := s.boxes[id].(running := false)]))
  {
    assert id in s.db.instances ==> BoxOk(NetOf(s), s.links, id, s.db.instances[id], s.boxes[id]);
    GrowKeeps(s.db.issued, s.db.instances, NetOf(s), s.links, s.boxes, s.minted, s.lost, s.inst, id,
              s.boxes[id].(running := false));
  }

  lemma BoxExitsKeeps(s: Sys, id: Id)
    requires BoxesInv(s)
    ensures BoxesInv(BoxExitsStep(s, id))
  {
    if !Hooking(s.inst, id) {
      if id in s.boxes {
        BoxStops(s, id);
        OwnLinksGo(s.(boxes := s.boxes[id := s.boxes[id].(running := false)]), id);
      } else {
        OwnLinksGo(s, id);
      }
    }
  }
}
