/** What the control plane promises, for every reachable state and every run from it. */
module Runs {
  import opened Ipv4
  import opened Rows
  import opened Transactions
  import opened StoreInvariant
  import opened StoreProofs
  import opened TopologyProofs
  import opened Machine
  import opened NetInvariant
  import opened NetProofs
  import opened BoxInvariant
  import opened BoxProofs
  import opened Safety

  ghost predicate Reachable(s: Sys) {
    exists start, run :: Initial(start) && Exec(start, run) == s
  }

  lemma ReachableInv(s: Sys)
    requires Reachable(s)
    ensures Inv(s)
  {
    var start, run :| Initial(start) && Exec(start, run) == s;
    InitialInv(start);
    ExecKeeps(start, run);
  }

  // ---- Reverse-order teardown ----

  lemma ApiAnchors(s: Sys, a: Action)
    requires Inv(s)
    ensures Anchored(NetOf(s), NetOf(ApiStep(s, a))) && ApiStep(s, a).spaces == s.spaces
  {
    ApiStepShape(s, a);
    MoveAnchors(s.db, ApiStep(s, a).db, s.spaces);
  }

  lemma StillAnchored(net: Net)
    ensures Anchored(net, net)
  {}

  lemma SweepAnchors(s: Sys, outcome: Outcome)
    requires Inv(s)
    ensures Anchored(NetOf(s), NetOf(SweepDropStep(s, outcome)))
  {
    StillAnchored(NetOf(s));
    if s.net.Dropping? && s.net.names != [] && s.net.names[0] !in s.net.wanted && outcome.Fine? {
      var k := s.net.names[0];
      if k in s.spaces {
        SweepDropsOrphansOnly(s, outcome, k);
        SpaceRemovalAnchors(s, k);
      } else {
        assert s.spaces - {k} == s.spaces;
      }
    }
  }

  lemma EngineStepAnchors(s: Sys, outcome: Outcome, left: Option<set<nat>>)
    requires Inv(s)
    ensures Anchored(NetOf(s), NetOf(NetEngineStep(s, outcome, left)))
  {
    StillAnchored(NetOf(s));
    if s.net.NetSnap? {
      if s.net.vpc.deleting {
        EngineShape(s, outcome, left);
        DeletingVpcOwnsIndex(s);
        SpaceRemovalAnchors(s, s.net.vpc.index);
      } else {
        EngineAnchors(s, outcome, left);
      }
    }
  }

  lemma RecordStepAnchors(s: Sys)
    requires Inv(s)
    ensures Anchored(NetOf(s), NetOf(NetRecordStep(s)))
  {
    StillAnchored(NetOf(s));
    if s.net.NetDone? && RecordTopologyTx(s.db, s.net.id, s.net.vpc, s.net.kids, s.net.failure).Committed? {
      TopologyAnchors(s);
    }
  }

  lemma PcStepAnchors(s: Sys, a: Action)
    requires !a.NetEngine? && !a.NetRecord? && !a.SweepDrop?
    ensures Anchored(NetOf(s), NetOf(NetStep(s, a)))
  {
    NetPcStep(s, a);
    StillAnchored(NetOf(s));
  }

  lemma NetStepAnchors(s: Sys, a: Action)
    requires Inv(s)
    ensures Anchored(NetOf(s), NetOf(NetStep(s, a)))
  {
    if a.NetEngine? {
      EngineStepAnchors(s, a.outcome, a.left);
      assert NetStep(s, a) == NetEngineStep(s, a.outcome, a.left);
    } else if a.NetRecord? {
      RecordStepAnchors(s);
      assert NetStep(s, a) == NetRecordStep(s);
    } else if a.SweepDrop? {
      SweepAnchors(s, a.outcome);
      assert NetStep(s, a) == SweepDropStep(s, a.outcome);
    } else {
      PcStepAnchors(s, a);
    }
  }

  lemma InstanceSteps(s: Sys, a: Action)
    requires !OfApi(a) && !OfNet(a)
    ensures InstanceSide(s, Step(s, a))
  {
    if OfStart(a) {
      StartSide(s, a);
    } else if OfStop(a) {
      StopSide(s, a);
    } else {
      LaunchSide(s, a);
    }
  }

  /** Whatever the step, a subnet without deletion intent keeps its place, its namespace and its gateway. */
  lemma StepAnchors(s: Sys, a: Action)
    requires Inv(s)
    ensures Anchored(NetOf(s), NetOf(Step(s, a)))
  {
    StillAnchored(NetOf(s));
    if OfApi(a) {
      ApiAnchors(s, a);
    } else if OfNet(a) {
      NetStepAnchors(s, a);
    } else {
      InstanceSteps(s, a);
    }
  }

  /** The gateway of a subnet that has an instance row is never removed. */
  lemma GatewayStaysUnderInstances(s: Sys, a: Action, i: Id)
    requires Reachable(s) && i in s.db.instances
    requires s.db.instances[i].subnet in s.db.subnets ==>
             GateUp(s.db.vpcs, s.spaces, s.db.subnets[s.db.instances[i].subnet])
    ensures s.db.instances[i].subnet in s.db.subnets
    ensures
      var t := Step(s, a);
      var c := s.db.instances[i].subnet;
      c in t.db.subnets && t.db.subnets[c].vpc == s.db.subnets[c].vpc && t.db.subnets[c].cidr == s.db.subnets[c].cidr &&
      GateUp(t.db.vpcs, t.spaces, t.db.subnets[c])
  {
    ReachableInv(s);
    StepAnchors(s, a);
    assert SubnetAnchored(NetOf(s), NetOf(Step(s, a)), s.db.instances[i].subnet);
  }

  /** Over a whole run: once up, the gateway of a subnet stays up for as long as nobody deletes the subnet. */
  lemma {:induction false} GatewayOutlivesRun(s: Sys, run: seq<Action>, c: Id)
    requires Inv(s) && c in s.db.subnets && GateUp(s.db.vpcs, s.spaces, s.db.subnets[c])
    requires c in Exec(s, run).db.subnets && !Exec(s, run).db.subnets[c].deleting
    ensures GateUp(Exec(s, run).db.vpcs, Exec(s, run).spaces, Exec(s, run).db.subnets[c])
    decreases |run|
  {
    SubnetIssued(s.db.issued, s.db.subnets, c);
    ExecKeeps(s, run);
    assert SubnetEvolves(s.db.subnets[c], Exec(s, run).db.subnets[c]);
    if run != [] {
      StepAnchors(s, run[0]);
      StepKeeps(s, run[0]);
      assert SubnetAnchored(NetOf(s), NetOf(Step(s, run[0])), c);
      GatewayOutlivesRun(Step(s, run[0]), run[1..], c);
    }
  }

  lemma ApiSpaces(s: Sys, a: Action)
    ensures ApiStep(s, a).spaces == s.spaces
  {}

  lemma EngineRemovesOnlyDeleting(s: Sys, outcome: Outcome, left: Option<set<nat>>, k: Index)
    requires Inv(s) && k in s.spaces && k !in NetEngineStep(s, outcome, left).spaces
    ensures forall v :: v in s.db.vpcs && s.db.vpcs[v].index == k ==> s.db.vpcs[v].deleting
  {
    EngineShape(s, outcome, left);
    DeletingVpcOwnsIndex(s);
  }

  lemma NetRemovesOnlyDeleting(s: Sys, a: Action, k: Index)
    requires Inv(s) && k in s.spaces && k !in NetStep(s, a).spaces
    ensures forall v :: v in s.db.vpcs && s.db.vpcs[v].index == k ==> s.db.vpcs[v].deleting
  {
    if a.NetEngine? {
      EngineRemovesOnlyDeleting(s, a.outcome, a.left, k);
    } else if a.SweepDrop? {
      SweepDropsOrphansOnly(s, a.outcome, k);
    } else if !a.NetRecord? {
      NetPcStep(s, a);
    }
  }

  lemma RemovesOnlyDeleting(s: Sys, a: Action, k: Index)
    requires Inv(s) && k in s.spaces && k !in Step(s, a).spaces
    ensures forall v :: v in s.db.vpcs && s.db.vpcs[v].index == k ==> s.db.vpcs[v].deleting
  {
    if OfApi(a) {
      ApiSpaces(s, a);
    } else if OfNet(a) {
      NetRemovesOnlyDeleting(s, a, k);
    } else {
      InstanceSteps(s, a);
    }
  }

  lemma NoSubnetInside(vpcs: map<Id, Vpc>, subnets: map<Id, Subnet>, k: Index)
    requires SubnetRefs(vpcs, subnets) && forall c :: c in subnets ==> vpcs[subnets[c].vpc].index != k
    ensures forall v :: v in vpcs && vpcs[v].index == k ==> KidsOf(subnets, v) == map[]
  {
    forall v | v in vpcs && vpcs[v].index == k ensures KidsOf(subnets, v) == map[] {
      assert forall c :: c in subnets ==> subnets[c].vpc != v;
    }
  }

  lemma PlumbedHasRow(s: Sys)
    requires BoxesInv(s)
    ensures forall i :: i in s.boxes && (s.boxes[i].plumbed || i !in s.lost) ==> i in s.db.instances
  {}

  /** A namespace goes only when its VPC, if it still has a row, is being deleted and has no subnet
      left; no link and no instance of that VPC exists, and a container that was ever plumbed belongs
      to an instance elsewhere. */
  lemma NamespaceGoesLast(s: Sys, a: Action, k: Index)
    requires Reachable(s) && k in s.spaces && k !in Step(s, a).spaces
    ensures forall v :: v in s.db.vpcs && s.db.vpcs[v].index == k ==>
            s.db.vpcs[v].deleting && KidsOf(s.db.subnets, v) == map[]
    ensures forall l :: l in s.links ==> l.space != k
    ensures forall i :: i in s.db.instances ==> !AtHome(NetOf(s), s.db.instances[i], k)
    ensures forall i :: i in s.boxes && (s.boxes[i].plumbed || i !in s.lost) ==>
              i in s.db.instances && !AtHome(NetOf(s), s.db.instances[i], k)
  {
    ReachableInv(s);
    RemovesOnlyDeleting(s, a, k);
    NothingInside(s, k);
    PlumbedHasRow(s);
    NoSubnetInside(s.db.vpcs, s.db.subnets, k);
  }

  // ---- Rows, containers and leases ----

  /** Every container has a row, and outside the pass that is making it the row names it; except the
      lost ones, which no row names and which were never plumbed, let alone started. */
  lemma NoLeakedRuntime(s: Sys, i: Id)
    requires Reachable(s) && i in s.boxes
    ensures i !in s.lost ==> i in s.db.instances
    ensures i !in s.lost && !InWindow(s.inst, i) ==> s.db.instances[i].runtime == Some(s.boxes[i].rid)
    ensures i in s.lost ==>
              !NamesBox(s.db.instances, i) && !s.boxes[i].plumbed && !s.boxes[i].started && !s.boxes[i].running
  {
    ReachableInv(s);
    assert i in s.db.instances ==> BoxOk(NetOf(s), s.links, i, s.db.instances[i], s.boxes[i]);
    assert Grown(s.boxes[i]);
  }

  lemma ApiLosesNothing(s: Sys, a: Action)
    ensures ApiStep(s, a).lost == s.lost && ApiStep(s, a).inst == s.inst
  {}

  lemma NetLosesNothing(s: Sys, a: Action)
    ensures NetStep(s, a).lost == s.lost && NetStep(s, a).inst == s.inst
  {}

  lemma StartLosesNothing(s: Sys, a: Action)
    ensures StartStep(s, a).lost == s.lost
  {}

  lemma StopLosesByCut(s: Sys, a: Action)
    ensures StopStep(s, a).lost == if a.InstCancel? && Loses(s) then s.lost + {s.inst.id} else s.lost
  {}

  lemma NamingFinds(s: Sys)
    ensures RecordBoxStep(s).lost <= s.lost && RetainBoxStep(s).lost <= s.lost
  {}

  lemma BoxesLoseNothing(s: Sys, a: Action)
    requires a.CreateBox? || a.CleanUp?
    ensures LaunchStep(s, a).lost == s.lost
  {}

  lemma OtherLaunchLosesNothing(s: Sys, a: Action)
    requires !a.RecordBox? && !a.RetainBox? && !a.CreateBox? && !a.CleanUp?
    ensures LaunchStep(s, a).lost == s.lost
  {}

  lemma LaunchFinds(s: Sys, a: Action)
    ensures LaunchStep(s, a).lost <= s.lost
  {
    if a.RecordBox? || a.RetainBox? {
      NamingFinds(s);
    } else if a.CreateBox? || a.CleanUp? {
      BoxesLoseNothing(s, a);
    } else {
      OtherLaunchLosesNothing(s, a);
    }
  }

  /** A container is lost only by a cut between Create and the commit of its id, and only by the
      instance of that very pass, whose row names no container. */
  lemma LostOnlyByCut(s: Sys, a: Action, i: Id)
    requires Reachable(s) && i !in s.lost && i in Step(s, a).lost
    ensures a.InstCancel? && InWindow(s.inst, i) && i in s.db.instances && s.db.instances[i].runtime.None?
  {
    ReachableInv(s);
    if OfApi(a) {
      ApiLosesNothing(s, a);
    } else if OfNet(a) {
      NetLosesNothing(s, a);
    } else if OfStart(a) {
      StartLosesNothing(s, a);
    } else if OfStop(a) {
      StopLosesByCut(s, a);
    } else {
      LaunchFinds(s, a);
    }
  }

  predicate Finishes(s: Sys, a: Action, i: Id) {
    a.Finish? && s.inst.Finishing? && s.inst.id == i
  }

  lemma RuntimeCommitKeepsRows(s: Sys, i: Id)
    requires i in s.db.instances
    ensures i in RecordBoxStep(s).db.instances && i in RetainBoxStep(s).db.instances
  {}

  lemma StatusCommitKeepsRows(s: Sys, i: Id)
    requires i in s.db.instances
    ensures i in ObserveStep(s).db.instances && i in RecordFailureStep(s).db.instances
  {}

  lemma FinishRemovesItsOwn(s: Sys, i: Id)
    requires i in s.db.instances && i !in FinishStep(s).db.instances
    ensures s.inst.Finishing? && s.inst.id == i
  {}

  lemma NetStepKeepsInstances(s: Sys, a: Action)
    ensures NetStep(s, a).db.instances == s.db.instances
  {
    if a.NetRecord? {
      if s.net.NetDone? && RecordTopologyTx(s.db, s.net.id, s.net.vpc, s.net.kids, s.net.failure).Committed? {
        TopologySparesInstances(s.db, s.net.id, s.net.vpc, s.net.kids, s.net.failure);
      }
    } else {
      NetStepDb(s, a);
    }
  }

  lemma LaunchKeepsInstances(s: Sys, a: Action, i: Id)
    requires i in s.db.instances
    ensures i in LaunchStep(s, a).db.instances && i in StartStep(s, a).db.instances
  {
    LaunchSide(s, a);
    StartSide(s, a);
    RuntimeCommitKeepsRows(s, i);
    StatusCommitKeepsRows(s, i);
  }

  lemma StopKeepsInstances(s: Sys, a: Action, i: Id)
    requires i in s.db.instances && i !in StopStep(s, a).db.instances
    ensures Finishes(s, a, i)
  {
    StopSide(s, a);
    StatusCommitKeepsRows(s, i);
    if a.Finish? {
      FinishRemovesItsOwn(s, i);
    }
  }

  lemma ApiKeepsInstances(s: Sys, a: Action, i: Id)
    requires Inv(s) && i in s.db.instances
    ensures i in ApiStep(s, a).db.instances
  {
    ApiStepShape(s, a);
  }

  lemma InstanceStepKeepsInstances(s: Sys, a: Action, i: Id)
    requires i in s.db.instances && i !in Step(s, a).db.instances && !OfApi(a) && !OfNet(a)
    ensures Finishes(s, a, i)
  {
    if OfStop(a) {
      StopKeepsInstances(s, a, i);
    } else {
      LaunchKeepsInstances(s, a, i);
    }
  }

  lemma OnlyFinishRemovesRows(s: Sys, a: Action, i: Id)
    requires Inv(s) && i in s.db.instances && i !in Step(s, a).db.instances
    ensures Finishes(s, a, i)
  {
    if OfApi(a) {
      ApiKeepsInstances(s, a, i);
    } else if OfNet(a) {
      NetStepKeepsInstances(s, a);
    } else {
      InstanceStepKeepsInstances(s, a, i);
    }
  }

  lemma FinishingFindsNothing(s: Sys)
    requires BoxesInv(s) && s.inst.Finishing?
    ensures TornDown(s.db.instances, s.boxes, s.lost, s.inst.id, s.inst.snap)
    ensures forall l :: l in s.links ==> l.owner != s.inst.id
  {}

  /** An instance row, and with it its address, is released only by a termination that finds the
      container and then the link gone; a container that outlives it was lost before. */
  lemma LeaseReleasedLast(s: Sys, a: Action, i: Id)
    requires Reachable(s) && i in s.db.instances && i !in Step(s, a).db.instances
    ensures s.db.instances[i].deleting
    ensures forall l :: l in s.links ==> l.owner != i
    ensures i in s.boxes <==> i in s.lost
  {
    ReachableInv(s);
    OnlyFinishRemovesRows(s, a, i);
    FinishingFindsNothing(s);
  }

  /** No step but a topology commit removes network rows. */
  lemma OnlyRecordRemovesNetworkRows(s: Sys, a: Action)
    requires Inv(s) && !a.NetRecord?
    ensures s.db.vpcs.Keys <= Step(s, a).db.vpcs.Keys && s.db.subnets.Keys <= Step(s, a).db.subnets.Keys
  {
    if OfApi(a) {
      ApiStepShape(s, a);
    } else if OfNet(a) {
      NetStepDb(s, a);
    } else {
      InstanceSteps(s, a);
    }
  }

  predicate Commits(s: Sys) {
    s.net.NetDone? && RecordTopologyTx(s.db, s.net.id, s.net.vpc, s.net.kids, s.net.failure).Committed?
  }

  lemma RecordRemovesVpc(s: Sys, v: Id)
    requires v in s.db.vpcs && v !in NetRecordStep(s).db.vpcs
    ensures Commits(s) && s.net.failure.None? && s.net.vpc.deleting && s.net.id == v
    ensures forall c :: c in s.db.subnets ==> s.db.subnets[c].vpc != v
  {
    TopologyShape(s.db, s.net.id, s.net.vpc, s.net.kids, s.net.failure);
  }

  lemma RecordRemovesSubnet(s: Sys, c: Id)
    requires c in s.db.subnets && c !in NetRecordStep(s).db.subnets
    ensures Commits(s) && s.net.failure.None? && !s.net.vpc.deleting && s.db.subnets[c].vpc == s.net.id &&
            s.db.subnets[c].deleting
  {
    TopologyShape(s.db, s.net.id, s.net.vpc, s.net.kids, s.net.failure);
  }

  /** A VPC row is removed only after its namespace. */
  lemma VpcRowGoesAfterNamespace(s: Sys, a: Action, v: Id)
    requires Reachable(s) && v in s.db.vpcs && v !in Step(s, a).db.vpcs
    ensures s.db.vpcs[v].deleting && s.db.vpcs[v].index !in s.spaces
    ensures forall c :: c in s.db.subnets ==> s.db.subnets[c].vpc != v
  {
    ReachableInv(s);
    if !a.NetRecord? {
      OnlyRecordRemovesNetworkRows(s, a);
    } else {
      RecordRemovesVpc(s, v);
      CommitMeansUnchanged(s);
    }
  }

  lemma GatewayOffRouter(vpcs: map<Id, Vpc>, subnets: map<Id, Subnet>, spaces: map<Index, set<nat>>, c: Id)
    requires PlanOk(vpcs, subnets) && c in subnets && subnets[c].deleting && subnets[c].vpc in vpcs
    requires Applied(spaces, vpcs[subnets[c].vpc], KidsOf(subnets, subnets[c].vpc))
    ensures !GateUp(vpcs, spaces, subnets[c])
  {
    var kids := KidsOf(subnets, subnets[c].vpc);
    if GateUp(vpcs, spaces, subnets[c]) {
      var d :| d in kids && !kids[d].deleting && kids[d].cidr.bits <= 32 &&
        Gateway(kids[d].cidr) == Gateway(subnets[c].cidr);
      SameGatewayOverlaps(vpcs, subnets, c, d);
    }
  }

  lemma RecordedSubnetGone(s: Sys, c: Id)
    requires NetOk(s) && PlanOk(s.db.vpcs, s.db.subnets) && c in s.db.subnets && c !in NetRecordStep(s).db.subnets
    ensures s.db.subnets[c].deleting && !GateUp(s.db.vpcs, s.spaces, s.db.subnets[c])
  {
    RecordRemovesSubnet(s, c);
    CommitMeansUnchanged(s);
    GatewayOffRouter(s.db.vpcs, s.db.subnets, s.spaces, c);
  }

  /** A subnet row is removed only after its gateway, and only once no instance is left in it. */
  lemma SubnetRowGoesAfterGateway(s: Sys, a: Action, c: Id)
    requires Reachable(s) && c in s.db.subnets && c !in Step(s, a).db.subnets
    ensures s.db.subnets[c].deleting && !GateUp(s.db.vpcs, s.spaces, s.db.subnets[c])
    ensures forall i :: i in s.db.instances ==> s.db.instances[i].subnet != c
  {
    ReachableInv(s);
    if a.NetRecord? {
      RecordedSubnetGone(s, c);
    } else {
      OnlyRecordRemovesNetworkRows(s, a);
    }
  }

  // ---- Honest observation ----

  /** Observation never runs ahead of intent, and a row being deleted is never reported observed. */
  lemma HonestGenerations(s: Sys)
    requires Reachable(s)
    ensures forall v :: v in s.db.vpcs ==>
            s.db.vpcs[v].obs <= s.db.vpcs[v].gen && (s.db.vpcs[v].deleting ==> s.db.vpcs[v].obs < s.db.vpcs[v].gen)
    ensures forall c :: c in s.db.subnets ==>
              s.db.subnets[c].obs <= s.db.subnets[c].gen &&
                (s.db.subnets[c].deleting ==> s.db.subnets[c].obs < s.db.subnets[c].gen)
    ensures forall i :: i in s.db.instances ==>
              s.db.instances[i].obs <= s.db.instances[i].gen &&
                (s.db.instances[i].deleting ==> s.db.instances[i].obs < s.db.instances[i].gen)
  {
    ReachableInv(s);
    forall v | v in s.db.vpcs ensures VpcOk(s.db.issued, v, s.db.vpcs[v]) {}
    forall c | c in s.db.subnets ensures SubnetOk(s.db.issued, c, s.db.subnets[c]) {}
    forall i | i in s.db.instances ensures InstanceOk(s.db.issued, i, s.db.instances[i]) {}
  }

  /** A row that says running: not being deleted, observed, and its recorded container is the one the
      hook plumbed and Start then started; its gateway is up now, and its link while the container runs. */
  lemma RunningMeansStarted(s: Sys, i: Id)
    requires Reachable(s) && i in s.db.instances && s.db.instances[i].state == Running
    ensures !s.db.instances[i].deleting && s.db.instances[i].obs == s.db.instances[i].gen
    ensures i in s.boxes && s.db.instances[i].runtime == Some(s.boxes[i].rid) && s.boxes[i].started &&
            s.boxes[i].plumbed
    ensures Based(NetOf(s), s.db.instances[i]) && EniUp(s.db.instances[i].eni)
    ensures s.boxes[i].running ==> Wired(NetOf(s), s.links, i, s.db.instances[i])
  {
    ReachableInv(s);
    assert InstanceOk(s.db.issued, i, s.db.instances[i]);
    assert BoxOk(NetOf(s), s.links, i, s.db.instances[i], s.boxes[i]);
  }

  /** Over any run a row keeps its identity, range, index and address; its generations only grow;
      deletion intent is never revoked; a runtime id, once written, never changes. */
  lemma RowsOnlyMoveForward(s: Sys, run: seq<Action>)
    requires Reachable(s)
    ensures forall v :: v in s.db.vpcs && v in Exec(s, run).db.vpcs ==>
            VpcEvolves(s.db.vpcs[v], Exec(s, run).db.vpcs[v])
    ensures forall c :: c in s.db.subnets && c in Exec(s, run).db.subnets ==>
            SubnetEvolves(s.db.subnets[c], Exec(s, run).db.subnets[c])
    ensures forall i :: i in s.db.instances && i in Exec(s, run).db.instances ==>
              InstanceEvolves(s.db.instances[i], Exec(s, run).db.instances[i])
  {
    ReachableInv(s);
    ExecKeeps(s, run);
    forall v | v in s.db.vpcs ensures v in s.db.issued { VpcIssued(s.db.issued, s.db.vpcs, v); }
    forall c | c in s.db.subnets ensures c in s.db.issued { SubnetIssued(s.db.issued, s.db.subnets, c); }
    forall i | i in s.db.instances ensures i in s.db.issued { InstanceIssued(s.db.issued, s.db.instances, i); }
  }

  /** A row that is gone stays gone: its id is never handed to another row of any kind. */
  lemma GoneForGood(s: Sys, run: seq<Action>, id: Id)
    requires Reachable(s) && id in s.db.issued
    ensures id !in s.db.vpcs ==> id !in Exec(s, run).db.vpcs
    ensures id !in s.db.subnets ==> id !in Exec(s, run).db.subnets
    ensures id !in s.db.instances ==> id !in Exec(s, run).db.instances
  {
    ReachableInv(s);
    ExecKeeps(s, run);
  }

  // ---- Commits, plumbing, sweep ----

  /** Staleness checks are free of ABA: a commit settles exactly the rows the engine was given. */
  lemma CommitSeesWhatEngineSaw(s: Sys)
    requires Reachable(s) && s.net.NetDone?
    requires RecordTopologyTx(s.db, s.net.id, s.net.vpc, s.net.kids, s.net.failure).Committed?
    ensures s.net.id in s.db.vpcs && s.db.vpcs[s.net.id] == s.net.vpc && KidsOf(s.db.subnets, s.net.id) == s.net.kids
  {
    ReachableInv(s);
    CommitMeansUnchanged(s);
  }

  lemma AvailableMeansPlumbed(s: Sys, c: Id)
    requires Reachable(s) && c in s.db.subnets && s.db.subnets[c].state == Available
    ensures !s.db.subnets[c].deleting && s.db.subnets[c].obs == s.db.subnets[c].gen
    ensures GateUp(s.db.vpcs, s.spaces, s.db.subnets[c])
  {
    ReachableInv(s);
    assert SubnetOk(s.db.issued, c, s.db.subnets[c]);
  }

  /** The sweep never removes the namespace of a VPC that has a row, whenever that row was created. */
  lemma SweepSparesEveryVpc(s: Sys, outcome: Outcome, v: Id)
    requires Reachable(s) && v in s.db.vpcs && s.db.vpcs[v].index in s.spaces
    ensures s.db.vpcs[v].index in SweepDropStep(s, outcome).spaces
  {
    ReachableInv(s);
    if s.db.vpcs[v].index !in SweepDropStep(s, outcome).spaces {
      SweepDropsOrphansOnly(s, outcome, s.db.vpcs[v].index);
    }
  }

  // ---- Addresses ----

  lemma LeaseOutsideSibling(vpcs: map<Id, Vpc>, subnets: map<Id, Subnet>, c: Id, d: Id, ip: nat)
    requires PlanOk(vpcs, subnets) && c in subnets && d in subnets && c != d && subnets[c].vpc == subnets[d].vpc
    requires subnets[c].cidr.bits <= 32 && Contains(subnets[c].cidr, ip)
    ensures subnets[d].cidr.bits <= 32 && !Contains(subnets[d].cidr, ip)
  {
    assert Apart(subnets[c], subnets[d]);
    if Contains(subnets[d].cidr, ip) {
      DisjointRanges(subnets[c].cidr, subnets[d].cidr, ip, ip);
    }
  }

  /** An address is assignable in its own subnet and is no gateway, reserved or last address of any
      subnet of its VPC. */
  lemma AddressFits(s: Sys, i: Id, d: Id)
    requires Reachable(s) && i in s.db.instances && d in s.db.subnets
    ensures s.db.instances[i].subnet in s.db.subnets
    ensures
      var ip, own := s.db.instances[i].eni.ip, s.db.subnets[s.db.instances[i].subnet];
      var other := s.db.subnets[d];
      && Canonical(own.cidr) && Assignable(own.cidr, ip)
      && Canonical(other.cidr) && (other.vpc == own.vpc ==> NoSpecial(other.cidr, ip))
  {
    ReachableInv(s);
    assert LeaseOk(s.db.subnets, s.db.instances[i]);
    assert Nested(s.db.vpcs, s.db.subnets[d]);
    if s.db.subnets[d].vpc == s.db.subnets[s.db.instances[i].subnet].vpc {
      NotSpecial(s, i, d);
    }
  }

  /** Neither network, gateway, reserved nor last address of the range. */
  predicate NoSpecial(cidr: Prefix, ip: nat)
    requires Canonical(cidr)
  {
    !Reserved(cidr, ip) && ip != Gateway(cidr) && ip != Last(cidr) && ip != Base(cidr)
  }

  lemma NotSpecial(s: Sys, i: Id, d: Id)
    requires PlanOk(s.db.vpcs, s.db.subnets) && i in s.db.instances && d in s.db.subnets &&
             LeaseOk(s.db.subnets, s.db.instances[i])
    requires s.db.subnets[d].vpc == s.db.subnets[s.db.instances[i].subnet].vpc
    ensures Canonical(s.db.subnets[d].cidr) && NoSpecial(s.db.subnets[d].cidr, s.db.instances[i].eni.ip)
  {
    var c := s.db.instances[i].subnet;
    var cidr := s.db.subnets[d].cidr;
    assert Nested(s.db.vpcs, s.db.subnets[d]);
    GatewayInside(cidr);
    ContainsIsRange(cidr, Gateway(cidr));
    ContainsIsRange(cidr, Last(cidr));
    ContainsIsRange(cidr, Base(cidr));
    if c != d {
      LeaseOutsideSibling(s.db.vpcs, s.db.subnets, c, d, s.db.instances[i].eni.ip);
    }
  }

  /** No two ENIs of one VPC share an address, whatever their subnets. */
  lemma AddressesUnique(s: Sys, i: Id, j: Id)
    requires Reachable(s) && i in s.db.instances && j in s.db.instances && i != j
    ensures s.db.instances[i].subnet in s.db.subnets && s.db.instances[j].subnet in s.db.subnets
    ensures s.db.subnets[s.db.instances[i].subnet].vpc == s.db.subnets[s.db.instances[j].subnet].vpc ==>
              s.db.instances[i].eni.ip != s.db.instances[j].eni.ip
  {
    ReachableInv(s);
    assert LeaseOk(s.db.subnets, s.db.instances[i]) && LeaseOk(s.db.subnets, s.db.instances[j]);
    if s.db.instances[i].subnet == s.db.instances[j].subnet {
      assert LeaseApart(s.db.instances[i], s.db.instances[j]);
    } else if s.db.subnets[s.db.instances[i].subnet].vpc == s.db.subnets[s.db.instances[j].subnet].vpc {
      LeaseOutsideSibling(s.db.vpcs, s.db.subnets, s.db.instances[i].subnet, s.db.instances[j].subnet,
                          s.db.instances[i].eni.ip);
    }
  }

  // ---- The journal ----

  /** Folding the log gives back exactly the live rows, each with the state, generation and reason it
      has now; and the log of an earlier state is a prefix of every later one. */
  lemma JournalIsFaithful(s: Sys, run: seq<Action>)
    requires Reachable(s)
    ensures Journals(Fold(s.db.events), s.db) && s.db.events <= Exec(s, run).db.events
  {
    ReachableInv(s);
    ExecKeeps(s, run);
  }
}
