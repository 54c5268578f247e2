/** The invariant of every reachable state, and what follows from it for whole runs. */
module Safety {
  import opened Ipv4
  import opened Rows
  import opened Transactions
  import opened StoreInvariant
  import opened StoreProofs
  import opened TopologyProofs
  import opened Machine
  import opened NetInvariant
  import opened NetProofs
  import opened BoxInvariant
  import opened BoxProofs
  import opened BoxSteps

  ghost predicate Inv(s: Sys) {
    DbInv(s.db) && NetOk(s) && BoxesInv(s)
  }

  lemma InitialInv(s: Sys)
    requires Initial(s)
    ensures Inv(s)
  {}

  // ---- API requests ----

  lemma PlanParses(db: Db)
    requires PlanOk(db.vpcs, db.subnets)
    ensures CidrsParse(db)
  {
    PlanIsValid(db.vpcs, db.subnets);
  }

  /** A request that changes network rows and one that changes instance rows are different requests. */
  predicate OneSide(a: Db, b: Db) {
    a.instances == b.instances || (a.vpcs == b.vpcs && a.subnets == b.subnets)
  }

  ghost predicate ApiGood(a: Db, b: Db) {
    DbInv(b) && Evolves(a, b) && ApiMove(a, b) && OneSide(a, b)
  }

  lemma NothingHappened(db: Db)
    requires DbInv(db)
    ensures ApiGood(db, db)
  {}

  lemma VpcAdded(issued: seq<Id>, vpcs: map<Id, Vpc>, id: Id, row: Vpc)
    requires VpcRows(issued, vpcs) && id !in issued && row.index > |issued|
    ensures VpcsMove(issued, vpcs, vpcs[id := row])
  {
    if id in vpcs {
      VpcIssued(issued, vpcs, id);
    }
  }

  lemma SubnetAdded(issued: seq<Id>, subnets: map<Id, Subnet>, id: Id, row: Subnet)
    requires SubnetRows(issued, subnets) && id !in issued && row.state == Pending
    ensures SubnetsMove(issued, subnets, subnets[id := row])
  {
    if id in subnets {
      SubnetIssued(issued, subnets, id);
    }
  }

  lemma InstanceAdded(issued: seq<Id>, instances: map<Id, Instance>, id: Id, row: Instance)
    requires InstanceRows(issued, instances) && id !in issued && Newborn(row)
    ensures InstancesMove(issued, instances, instances[id := row])
  {
    if id in instances {
      InstanceIssued(issued, instances, id);
    }
  }

  lemma StandsStill(issued: seq<Id>, vpcs: map<Id, Vpc>, subnets: map<Id, Subnet>, instances: map<Id, Instance>)
    ensures VpcsMove(issued, vpcs, vpcs) && SubnetsMove(issued, subnets, subnets) &&
            InstancesMove(issued, instances, instances)
  {}

  lemma CreateVpcMoves(db: Db, id: Id, name: string, raw: Prefix, key: string, now: int)
    requires VpcRows(db.issued, db.vpcs) && Valid(raw)
    ensures
      var next := CreateVpcTx(db, id, name, raw, key, now).0;
      ApiMove(db, next) && OneSide(db, next)
  {
    CreateVpcShape(db, id, name, raw, key, now);
    StandsStill(db.issued, db.vpcs, db.subnets, db.instances);
    if CreateVpcTx(db, id, name, raw, key, now).0 != db {
      VpcAdded(db.issued, db.vpcs, id, NewVpc(db, name, ParseCidr(raw).value));
    }
  }

  lemma CreateSubnetMoves(db: Db, id: Id, vpc: Id, name: string, raw: Prefix, zone: string, key: string, now: int)
    requires SubnetRows(db.issued, db.subnets) && Valid(raw) && CidrsParse(db)
    ensures
      var next := CreateSubnetTx(db, id, vpc, name, raw, zone, key, now).0;
      ApiMove(db, next) && OneSide(db, next)
  {
    CreateSubnetShape(db, id, vpc, name, raw, zone, key, now);
    StandsStill(db.issued, db.vpcs, db.subnets, db.instances);
    if CreateSubnetTx(db, id, vpc, name, raw, zone, key, now).0 != db {
      SubnetAdded(db.issued, db.subnets, id, NewSubnet(db, vpc, name, ParseCidr(raw).value));
    }
  }

  lemma RunInstanceMoves(db: Db, id: Id, eniId: Id, subnet: Id, name: string, key: string, now: int)
    requires InstanceRows(db.issued, db.instances) && CidrsParse(db)
    ensures
      var next := RunInstanceTx(db, id, eniId, subnet, name, key, now).0;
      ApiMove(db, next) && OneSide(db, next)
  {
    RunInstanceShape(db, id, eniId, subnet, name, key, now);
    StandsStill(db.issued, db.vpcs, db.subnets, db.instances);
    if RunInstanceTx(db, id, eniId, subnet, name, key, now).0 != db {
      var ip := NextAddress(db.subnets[subnet].cidr, UsedAddresses(db.instances, subnet)).ip;
      InstanceAdded(db.issued, db.instances, id, NewInstance(db, eniId, subnet, name, ip));
    }
  }

  lemma CreateVpcGood(db: Db, id: Id, name: string, raw: Prefix, key: string, now: int)
    requires DbInv(db) && Valid(raw)
    ensures ApiGood(db, CreateVpcTx(db, id, name, raw, key, now).0)
  {
    CreateVpcKeeps(db, id, name, raw, key, now);
    CreateVpcMoves(db, id, name, raw, key, now);
  }

  lemma CreateSubnetGood(db: Db, id: Id, vpc: Id, name: string, raw: Prefix, zone: string, key: string, now: int)
    requires DbInv(db) && Valid(raw) && CidrsParse(db)
    ensures ApiGood(db, CreateSubnetTx(db, id, vpc, name, raw, zone, key, now).0)
  {
    CreateSubnetKeeps(db, id, vpc, name, raw, zone, key, now);
    CreateSubnetMoves(db, id, vpc, name, raw, zone, key, now);
  }

  lemma RunInstanceGood(db: Db, id: Id, eniId: Id, subnet: Id, name: string, key: string, now: int)
    requires DbInv(db) && CidrsParse(db)
    ensures ApiGood(db, RunInstanceTx(db, id, eniId, subnet, name, key, now).0)
  {
    RunInstanceKeeps(db, id, eniId, subnet, name, key, now);
    RunInstanceMoves(db, id, eniId, subnet, name, key, now);
  }

  lemma DeleteVpcMoves(db: Db, id: Id)
    ensures ApiMove(db, DeleteVpcTx(db, id).0) && OneSide(db, DeleteVpcTx(db, id).0)
  {
    StandsStill(db.issued, db.vpcs, db.subnets, db.instances);
  }

  lemma DeleteSubnetMoves(db: Db, id: Id)
    ensures ApiMove(db, DeleteSubnetTx(db, id).0) && OneSide(db, DeleteSubnetTx(db, id).0)
  {
    DeleteSubnetShape(db, id);
    StandsStill(db.issued, db.vpcs, db.subnets, db.instances);
  }

  lemma TerminateMoves(db: Db, id: Id)
    ensures ApiMove(db, TerminateTx(db, id).0) && OneSide(db, TerminateTx(db, id).0)
  {
    StandsStill(db.issued, db.vpcs, db.subnets, db.instances);
  }

  lemma DeleteVpcGood(db: Db, id: Id)
    requires DbInv(db)
    ensures ApiGood(db, DeleteVpcTx(db, id).0)
  {
    DeleteVpcKeeps(db, id);
    DeleteVpcMoves(db, id);
  }

  lemma DeleteSubnetGood(db: Db, id: Id)
    requires DbInv(db)
    ensures ApiGood(db, DeleteSubnetTx(db, id).0)
  {
    DeleteSubnetKeeps(db, id);
    DeleteSubnetMoves(db, id);
  }

  lemma TerminateGood(db: Db, id: Id)
    requires DbInv(db)
    ensures ApiGood(db, TerminateTx(db, id).0)
  {
    TerminateKeeps(db, id);
    TerminateMoves(db, id);
  }

  lemma ApiTouchesDb(s: Sys, a: Action)
    ensures ApiStep(s, a) == s.(db := ApiStep(s, a).db)
  {}

  lemma CreatesGood(s: Sys, a: Action)
    requires DbInv(s.db) && CidrsParse(s.db) && (a.CreateVpc? || a.CreateSubnet? || a.RunInstance?)
    ensures ApiGood(s.db, ApiStep(s, a).db)
  {
    NothingHappened(s.db);
    if a.RunInstance? {
      RunInstanceGood(s.db, a.newId, a.eniId, a.parent, a.name, a.key, a.now);
    } else if Valid(a.raw) {
      if a.CreateVpc? {
        CreateVpcGood(s.db, a.newId, a.name, a.raw, a.key, a.now);
      } else {
        CreateSubnetGood(s.db, a.newId, a.parent, a.name, a.raw, a.zone, a.key, a.now);
      }
    }
  }

  lemma DeletesGood(s: Sys, a: Action)
    requires DbInv(s.db) && CidrsParse(s.db) && (a.DeleteVpc? || a.DeleteSubnet? || a.Terminate?)
    ensures ApiGood(s.db, ApiStep(s, a).db)
  {
    if a.DeleteVpc? {
      DeleteVpcGood(s.db, a.target);
    } else if a.DeleteSubnet? {
      DeleteSubnetGood(s.db, a.target);
    } else {
      TerminateGood(s.db, a.target);
    }
  }

  lemma ApiStepShape(s: Sys, a: Action)
    requires DbInv(s.db)
    ensures ApiStep(s, a) == s.(db := ApiStep(s, a).db) && ApiGood(s.db, ApiStep(s, a).db)
  {
    ApiTouchesDb(s, a);
    if CidrsParse(s.db) && (a.CreateVpc? || a.CreateSubnet? || a.RunInstance?) {
      CreatesGood(s, a);
    } else if CidrsParse(s.db) && (a.DeleteVpc? || a.DeleteSubnet? || a.Terminate?) {
      DeletesGood(s, a);
    } else {
      NothingHappened(s.db);
    }
  }

  lemma MoveAnchors(a: Db, b: Db, spaces: map<Index, set<nat>>)
    requires VpcsMove(a.issued, a.vpcs, b.vpcs) && SubnetsMove(a.issued, a.subnets, b.subnets)
    ensures Anchored(Net(a.vpcs, a.subnets, spaces), Net(b.vpcs, b.subnets, spaces))
  {
    var n, m := Net(a.vpcs, a.subnets, spaces), Net(b.vpcs, b.subnets, spaces);
    forall c | c in a.subnets && !a.subnets[c].deleting ensures SubnetAnchored(n, m, c) {
      assert SubnetDrift(a.subnets[c], b.subnets[c]);
    }
  }

  lemma ApiKeepsBoxes(s: Sys, db: Db)
    requires BoxesInv(s) && ApiMove(s.db, db) && OneSide(s.db, db) && InstanceRefs(s.db.subnets, s.db.instances)
    ensures BoxesInv(s.(db := db))
  {
    var net, after := NetOf(s), NetOf(s.(db := db));
    if db.instances == s.db.instances {
      MoveAnchors(s.db, db, s.spaces);
      AnchorKeeps(s.db.issued, db.issued, s.db.instances, net, after, s.links, s.boxes, s.minted, s.lost, s.inst);
    } else {
      MoveKeeps(s.db.issued, s.db.instances, db.instances, net, s.links, s.boxes, s.minted, s.lost, s.inst);
      assert BoxesOk(db.issued, db.instances, net, s.links, s.boxes, s.minted);
    }
  }

  lemma ApiKeeps(s: Sys, a: Action)
    requires Inv(s)
    ensures Inv(ApiStep(s, a)) && Evolves(s.db, ApiStep(s, a).db)
  {
    ApiStepShape(s, a);
    var db := ApiStep(s, a).db;
    ApiKeepsNet(s.db, db, s.spaces, s.net);
    ApiKeepsBoxes(s, db);
  }

  // ---- The network reconciler, seen from the instances ----

  /** Nothing lives in the namespace of a VPC that is being deleted, nor in one without a row. */
  lemma NothingInside(s: Sys, k: Index)
    requires Inv(s)
    requires forall v :: v in s.db.vpcs && s.db.vpcs[v].index == k ==> s.db.vpcs[v].deleting
    ensures forall l :: l in s.links ==> l.space != k
    ensures forall i :: i in s.db.instances ==> !AtHome(NetOf(s), s.db.instances[i], k)
    ensures forall c :: c in s.db.subnets ==> s.db.vpcs[s.db.subnets[c].vpc].index != k
    ensures WithoutSpace(s, k).links == s.links
  {
    forall i | i in s.db.instances ensures !AtHome(NetOf(s), s.db.instances[i], k) {
      assert s.db.instances[i].subnet in s.db.subnets;
    }
    forall l | l in s.links ensures l.space != k {
      assert LinkOk(s.db.instances, NetOf(s), l);
    }
  }

  lemma SpaceRemovalAnchors(s: Sys, k: Index)
    requires Inv(s)
    requires forall v :: v in s.db.vpcs && s.db.vpcs[v].index == k ==> s.db.vpcs[v].deleting
    ensures Anchored(NetOf(s), NetOf(WithoutSpace(s, k)))
  {
    NothingInside(s, k);
    var b := NetOf(WithoutSpace(s, k));
    forall c | c in s.db.subnets && !s.db.subnets[c].deleting ensures SubnetAnchored(NetOf(s), b, c) {}
  }

  lemma SpaceRemovalKeepsBoxes(s: Sys, k: Index, net: NetPc)
    requires Inv(s)
    requires forall v :: v in s.db.vpcs && s.db.vpcs[v].index == k ==> s.db.vpcs[v].deleting
    ensures BoxesInv(WithoutSpace(s, k).(net := net))
  {
    NothingInside(s, k);
    SpaceRemovalAnchors(s, k);
    AnchorKeeps(s.db.issued, s.db.issued, s.db.instances, NetOf(s), NetOf(WithoutSpace(s, k)), s.links, s.boxes,
                s.minted, s.lost, s.inst);
  }

  lemma DeletingVpcOwnsIndex(s: Sys)
    requires Inv(s) && s.net.NetSnap? && s.net.vpc.deleting
    ensures forall v :: v in s.db.vpcs && s.db.vpcs[v].index == s.net.vpc.index ==> s.db.vpcs[v].deleting
  {
    DriftIdentity(s.db.issued, s.db.vpcs, s.net.id, s.net.vpc);
    forall v | v in s.db.vpcs && s.db.vpcs[v].index == s.net.vpc.index ensures s.db.vpcs[v].deleting {
      IndexIsVpc(s.db.issued, s.db.vpcs, v, s.net.id);
    }
  }

  lemma EngineAnchors(s: Sys, outcome: Outcome, left: Option<set<nat>>)
    requires Inv(s) && s.net.NetSnap? && !s.net.vpc.deleting
    ensures Anchored(NetOf(s), NetOf(NetEngineStep(s, outcome, left)))
  {
    var t := NetEngineStep(s, outcome, left);
    forall c | c in s.db.subnets && !s.db.subnets[c].deleting ensures SubnetAnchored(NetOf(s), NetOf(t), c) {
      if GateUp(s.db.vpcs, s.spaces, s.db.subnets[c]) {
        EngineKeepsGates(s, outcome, left, c);
      }
    }
  }

  lemma EngineKeepsBoxes(s: Sys, outcome: Outcome, left: Option<set<nat>>)
    requires Inv(s)
    ensures BoxesInv(NetEngineStep(s, outcome, left))
  {
    var t := NetEngineStep(s, outcome, left);
    if s.net.NetSnap? {
      if s.net.vpc.deleting {
        DeletingVpcOwnsIndex(s);
        SpaceRemovalKeepsBoxes(s, s.net.vpc.index, t.net);
      } else {
        EngineAnchors(s, outcome, left);
        AnchorKeeps(s.db.issued, s.db.issued, s.db.instances, NetOf(s), NetOf(t), s.links, s.boxes, s.minted,
                    s.lost, s.inst);
      }
    }
  }

  lemma SettledAnchors(vpcs: map<Id, Vpc>, subnets: map<Id, Subnet>, spaces: map<Index, set<nat>>, id: Id, row: Vpc,
                       state: NetState, reason: string, ok: bool)
    requires id in vpcs && row.index == vpcs[id].index
    ensures Anchored(Net(vpcs, subnets, spaces),
                     Net(vpcs[id := row], SettledSubnets(subnets, id, state, reason, ok), spaces))
  {
    var a, b := Net(vpcs, subnets, spaces),
      Net(vpcs[id := row], SettledSubnets(subnets, id, state, reason, ok), spaces);
    forall c | c in subnets && !subnets[c].deleting ensures SubnetAnchored(a, b, c) {}
  }

  lemma RemovedAnchors(vpcs: map<Id, Vpc>, subnets: map<Id, Subnet>, spaces: map<Index, set<nat>>, id: Id)
    requires forall c :: c in subnets ==> subnets[c].vpc != id
    ensures Anchored(Net(vpcs, subnets, spaces), Net(vpcs - {id}, subnets, spaces))
  {
    forall c | c in subnets && !subnets[c].deleting
      ensures SubnetAnchored(Net(vpcs, subnets, spaces), Net(vpcs - {id}, subnets, spaces), c)
    {}
  }

  lemma TopologyAnchors(s: Sys)
    requires s.net.NetDone?
    requires RecordTopologyTx(s.db, s.net.id, s.net.vpc, s.net.kids, s.net.failure).Committed?
    ensures Anchored(NetOf(s), NetOf(NetRecordStep(s)))
  {
    var id, ok := s.net.id, s.net.failure.None?;
    TopologyShape(s.db, id, s.net.vpc, s.net.kids, s.net.failure);
    if s.net.vpc.deleting && ok {
      RemovedAnchors(s.db.vpcs, s.db.subnets, s.spaces, id);
    } else {
      var state := if ok then Available else Failed;
      var reason := if ok then "" else s.net.failure.value;
      SettledAnchors(s.db.vpcs, s.db.subnets, s.spaces, id, SettleVpc(s.db.vpcs[id], state, reason, ok), state,
                     reason, ok);
      assert s.db.vpcs[id := s.db.vpcs[id]] == s.db.vpcs;
    }
  }

  lemma TopologySparesInstances(db: Db, id: Id, vpc: Vpc, kids: map<Id, Subnet>, failure: Option<string>)
    requires RecordTopologyTx(db, id, vpc, kids, failure).Committed?
    ensures
      var next := RecordTopologyTx(db, id, vpc, kids, failure).db;
      next.instances == db.instances && next.issued == db.issued && next.replays == db.replays
  {}

  lemma NetRecordKeepsAll(s: Sys)
    requires Inv(s)
    ensures Inv(NetRecordStep(s)) && Evolves(s.db, NetRecordStep(s).db)
  {
    NetRecordKeeps(s);
    Unchanged(s.db.issued, s.db.vpcs, s.db.subnets, s.db.instances);
    if s.net.NetDone? && RecordTopologyTx(s.db, s.net.id, s.net.vpc, s.net.kids, s.net.failure).Committed? {
      var t := NetRecordStep(s);
      RecordTopologyKeeps(s.db, s.net.id, s.net.vpc, s.net.kids, s.net.failure);
      TopologySparesInstances(s.db, s.net.id, s.net.vpc, s.net.kids, s.net.failure);
      TopologyAnchors(s);
      AnchorKeeps(s.db.issued, s.db.issued, s.db.instances, NetOf(s), NetOf(t), s.links, s.boxes, s.minted, s.lost,
                  s.inst);
    }
  }

  lemma SweepKeepsBoxes(s: Sys, k: Index, net: NetPc)
    requires Inv(s)
    requires k in s.spaces ==> forall v :: v in s.db.vpcs ==> s.db.vpcs[v].index != k
    ensures BoxesInv(WithoutSpace(s, k).(net := net))
  {
    if k in s.spaces {
      SpaceRemovalKeepsBoxes(s, k, net);
    } else {
      assert s.spaces - {k} == s.spaces;
      forall l | l in s.links ensures l.space != k {
        assert LinkOk(s.db.instances, NetOf(s), l);
      }
      assert WithoutSpace(s, k).links == s.links;
    }
  }

  lemma SweepDropKeepsBoxes(s: Sys, outcome: Outcome)
    requires Inv(s)
    ensures BoxesInv(SweepDropStep(s, outcome))
  {
    if s.net.Dropping? && s.net.names != [] && s.net.names[0] !in s.net.wanted && outcome.Fine? {
      var k := s.net.names[0];
      if k in s.spaces {
        SweepDropsOrphansOnly(s, outcome, k);
      }
      SweepKeepsBoxes(s, k, SweepDropStep(s, outcome).net);
    }
  }

  // ---- All steps ----

  /** The step keeps the invariant, and the database moves forward. */
  ghost predicate Kept(s: Sys, t: Sys) {
    Inv(t) && Evolves(s.db, t.db)
  }

  lemma SameRows(db: Db)
    ensures Evolves(db, db)
  {}

  lemma NetStepNet(s: Sys, a: Action)
    requires NetOk(s) && DbInv(s.db)
    ensures NetOk(NetStep(s, a))
  {
    match a
    case NetLoad(id) => NetLoadKeeps(s, id);
    case NetList => NetListKeeps(s);
    case NetEngine(outcome, left) => NetEngineKeeps(s, outcome, left);
    case NetRecord => NetRecordKeeps(s);
    case NetCancel => NetCancelKeeps(s);
    case SweepStart => SweepStartKeeps(s);
    case SweepPage => SweepPageKeeps(s);
    case SweepNames(names) => SweepNamesKeeps(s, names);
    case SweepDrop(outcome) => SweepDropKeeps(s, outcome);
    case _ =>
  }

  lemma NetPcStep(s: Sys, a: Action)
    requires !a.NetEngine? && !a.NetRecord? && !a.SweepDrop?
    ensures NetStep(s, a) == s.(net := NetStep(s, a).net)
  {}

  lemma NetPcStepBoxes(s: Sys, net: NetPc)
    requires BoxesInv(s)
    ensures BoxesInv(s.(net := net))
  {}

  lemma NetStepDb(s: Sys, a: Action)
    requires !a.NetRecord?
    ensures NetStep(s, a).db == s.db
  {}

  lemma NetStepBoxes(s: Sys, a: Action)
    requires Inv(s) && !a.NetRecord?
    ensures BoxesInv(NetStep(s, a))
  {
    if a.NetEngine? {
      EngineKeepsBoxes(s, a.outcome, a.left);
    } else if a.SweepDrop? {
      SweepDropKeepsBoxes(s, a.outcome);
    } else {
      NetPcStep(s, a);
      NetPcStepBoxes(s, NetStep(s, a).net);
    }
  }

  lemma NetStepKeeps(s: Sys, a: Action)
    requires Inv(s)
    ensures Kept(s, NetStep(s, a))
  {
    if a.NetRecord? {
      NetRecordKeepsAll(s);
    } else {
      SameRows(s.db);
      NetStepDb(s, a);
      NetStepNet(s, a);
      NetStepBoxes(s, a);
    }
  }

  /** The instance reconciler touches neither network rows nor namespaces. */
  predicate InstanceSide(s: Sys, t: Sys) {
    t.net == s.net && t.spaces == s.spaces && t.db.issued == s.db.issued && t.db.vpcs == s.db.vpcs &&
      t.db.subnets == s.db.subnets
  }

  predicate Quiet(s: Sys, t: Sys) {
    t.net == s.net && t.spaces == s.spaces && t.db == s.db
  }

  ghost predicate DbKept(s: Sys, t: Sys) {
    DbInv(t.db) && Evolves(s.db, t.db)
  }

  lemma InstanceSideKeeps(s: Sys, t: Sys)
    requires NetOk(s) && InstanceSide(s, t) && BoxesInv(t) && DbKept(s, t)
    ensures Kept(s, t)
  {}

  lemma RecordBoxDb(s: Sys)
    requires DbInv(s.db)
    ensures DbKept(s, RecordBoxStep(s))
  {
    SameRows(s.db);
    if s.inst.CreatedBox? && RecordRuntimeTx(s.db, s.inst.id, s.inst.snap.gen, s.inst.rid).Committed? {
      RecordRuntimeKeeps(s.db, s.inst.id, s.inst.snap.gen, s.inst.rid);
    }
  }

  lemma RetainBoxDb(s: Sys)
    requires DbInv(s.db)
    ensures DbKept(s, RetainBoxStep(s))
  {
    SameRows(s.db);
    if s.inst.StaleBox? && RetainRuntimeTx(s.db, s.inst.id, s.inst.rid).Committed? {
      RetainRuntimeKeeps(s.db, s.inst.id, s.inst.rid);
    }
  }

  lemma ObserveDb(s: Sys)
    requires DbInv(s.db)
    ensures DbKept(s, ObserveStep(s))
  {
    SameRows(s.db);
    if s.inst.Observing? && RecordInstanceTx(s.db, s.inst.id, s.inst.snap, Running, "", true).Committed? {
      RecordInstanceKeeps(s.db, s.inst.id, s.inst.snap, Running, "", true);
    }
  }

  lemma RecordFailureDb(s: Sys)
    requires DbInv(s.db)
    ensures DbKept(s, RecordFailureStep(s))
  {
    SameRows(s.db);
    if s.inst.Failing? && RecordInstanceTx(s.db, s.inst.id, s.inst.snap, Broken, s.inst.cause, false).Committed? {
      RecordInstanceKeeps(s.db, s.inst.id, s.inst.snap, Broken, s.inst.cause, false);
    }
  }

  lemma FinishDb(s: Sys)
    requires DbInv(s.db)
    ensures DbKept(s, FinishStep(s))
  {
    SameRows(s.db);
    if s.inst.Finishing? && FinishTerminationTx(s.db, s.inst.id, s.inst.snap).Committed? {
      FinishTerminationKeeps(s.db, s.inst.id, s.inst.snap);
    }
  }

  lemma ReadVpcQuiet(s: Sys)
    ensures Quiet(s, ReadVpcStep(s))
  {}

  lemma LaunchPcSide(s: Sys, a: Action)
    requires a.InstLoad? || a.ReadSubnet? || a.ReadVpc? || a.InspectRunning? || a.ReloadFailed? || a.Reload?
    ensures Quiet(s, LaunchStep(s, a))
  {
    if a.ReadVpc? {
      ReadVpcQuiet(s);
    }
  }

  lemma LaunchBoxSide(s: Sys, a: Action)
    requires a.CreateBox? || a.CleanUp?
    ensures Quiet(s, LaunchStep(s, a))
  {}

  lemma RecordBoxSide(s: Sys)
    ensures InstanceSide(s, RecordBoxStep(s))
  {}

  lemma RetainBoxSide(s: Sys)
    ensures InstanceSide(s, RetainBoxStep(s))
  {}

  lemma LaunchSide(s: Sys, a: Action)
    ensures InstanceSide(s, LaunchStep(s, a))
    ensures !a.RecordBox? && !a.RetainBox? ==> LaunchStep(s, a).db == s.db
  {
    if a.RecordBox? {
      RecordBoxSide(s);
    } else if a.RetainBox? {
      RetainBoxSide(s);
    } else if a.CreateBox? || a.CleanUp? {
      LaunchBoxSide(s, a);
    } else if a.InstLoad? || a.ReadSubnet? || a.ReadVpc? || a.InspectRunning? || a.ReloadFailed? || a.Reload? {
      LaunchPcSide(s, a);
    } else {
      assert LaunchStep(s, a) == s;
    }
  }

  lemma HookCheckQuiet(s: Sys)
    ensures Quiet(s, HookCheckStep(s))
  {}

  lemma HookRecheckQuiet(s: Sys)
    ensures Quiet(s, HookRecheckStep(s))
  {}

  lemma InspectStartedQuiet(s: Sys, outcome: Outcome)
    ensures Quiet(s, InspectStartedStep(s, outcome))
  {}

  lemma StartPcSide(s: Sys, a: Action)
    requires a.HookCheck? || a.HookRecheck? || a.InspectStarted?
    ensures Quiet(s, StartStep(s, a))
  {
    match a
    case HookCheck => HookCheckQuiet(s);
    case HookRecheck => HookRecheckQuiet(s);
    case InspectStarted(outcome) => InspectStartedQuiet(s, outcome);
  }

  lemma StartBoxSide(s: Sys, a: Action)
    requires a.HookPlumb? || a.StartBox?
    ensures Quiet(s, StartStep(s, a))
  {}

  lemma ObserveSide(s: Sys)
    ensures InstanceSide(s, ObserveStep(s))
  {}

  lemma StartSide(s: Sys, a: Action)
    ensures InstanceSide(s, StartStep(s, a))
    ensures !a.Observe? ==> StartStep(s, a).db == s.db
  {
    if a.Observe? {
      ObserveSide(s);
    } else if a.HookPlumb? || a.StartBox? {
      StartBoxSide(s, a);
    } else if a.HookCheck? || a.HookRecheck? || a.InspectStarted? {
      StartPcSide(s, a);
    } else {
      assert StartStep(s, a) == s;
    }
  }

  lemma StopPcSide(s: Sys, a: Action)
    requires a.TermSubnet? || a.TermVpc? || a.InstCancel?
    ensures Quiet(s, StopStep(s, a))
  {}

  lemma StopBoxSide(s: Sys, a: Action)
    requires a.DeleteBox? || a.DeleteEni? || a.BoxExits?
    ensures Quiet(s, StopStep(s, a))
  {}

  lemma FinishSide(s: Sys)
    ensures InstanceSide(s, FinishStep(s))
  {}

  lemma RecordFailureSide(s: Sys)
    ensures InstanceSide(s, RecordFailureStep(s))
  {}

  lemma StopSide(s: Sys, a: Action)
    ensures InstanceSide(s, StopStep(s, a))
    ensures !a.Finish? && !a.RecordFailure? ==> StopStep(s, a).db == s.db
  {
    if a.Finish? {
      FinishSide(s);
    } else if a.RecordFailure? {
      RecordFailureSide(s);
    } else if a.DeleteBox? || a.DeleteEni? || a.BoxExits? {
      StopBoxSide(s, a);
    } else if a.TermSubnet? || a.TermVpc? || a.InstCancel? {
      StopPcSide(s, a);
    } else {
      assert StopStep(s, a) == s;
    }
  }

  lemma ReadBoxes(s: Sys, a: Action)
    requires BoxesInv(s) && (a.InstLoad? || a.ReadSubnet? || a.ReadVpc? || a.InspectRunning?)
    ensures BoxesInv(LaunchStep(s, a))
  {
    match a
    case InstLoad(id) => InstLoadKeeps(s, id);
    case ReadSubnet => ReadSubnetKeeps(s);
    case ReadVpc => ReadVpcKeeps(s);
    case InspectRunning(outcome) => InspectRunningKeeps(s, outcome);
  }

  lemma LaunchBoxes(s: Sys, a: Action)
    requires BoxesInv(s) && InstanceRows(s.db.issued, s.db.instances)
    ensures BoxesInv(LaunchStep(s, a))
  {
    if a.InstLoad? || a.ReadSubnet? || a.ReadVpc? || a.InspectRunning? {
      ReadBoxes(s, a);
    } else if a.CreateBox? {
      CreateBoxKeeps(s, a.outcome, a.offered);
    } else if a.RecordBox? {
      RecordBoxKeeps(s);
    } else if a.RetainBox? {
      RetainBoxKeeps(s);
    } else if a.CleanUp? {
      CleanUpKeeps(s, a.outcome, a.gone);
    } else if a.ReloadFailed? {
      ReloadFailedKeeps(s);
    } else if a.Reload? {
      ReloadKeeps(s);
    } else {
      assert LaunchStep(s, a) == s;
    }
  }

  lemma StartBoxes(s: Sys, a: Action)
    requires BoxesInv(s)
    ensures BoxesInv(StartStep(s, a))
  {
    match a
    case HookCheck => HookCheckKeeps(s);
    case HookPlumb(outcome, stays) => HookPlumbKeeps(s, outcome, stays);
    case HookRecheck => HookRecheckKeeps(s);
    case StartBox(outcome) => StartBoxKeeps(s, outcome);
    case InspectStarted(outcome) => InspectStartedKeeps(s, outcome);
    case Observe => ObserveKeeps(s);
    case _ =>
  }

  lemma TeardownBoxes(s: Sys, a: Action)
    requires BoxesInv(s) && InstanceRows(s.db.issued, s.db.instances)
    requires a.DeleteBox? || a.TermSubnet? || a.TermVpc? || a.DeleteEni? || a.Finish?
    ensures BoxesInv(StopStep(s, a))
  {
    match a
    case DeleteBox(outcome, gone) => DeleteBoxKeeps(s, outcome, gone);
    case TermSubnet => TermSubnetKeeps(s);
    case TermVpc => TermVpcKeeps(s);
    case DeleteEni(outcome, gone) => DeleteEniKeeps(s, outcome, gone);
    case Finish => FinishKeeps(s);
  }

  lemma StopBoxes(s: Sys, a: Action)
    requires BoxesInv(s) && InstanceRows(s.db.issued, s.db.instances)
    ensures BoxesInv(StopStep(s, a))
  {
    if a.DeleteBox? || a.TermSubnet? || a.TermVpc? || a.DeleteEni? || a.Finish? {
      TeardownBoxes(s, a);
    } else if a.RecordFailure? {
      RecordFailureKeeps(s);
    } else if a.InstCancel? {
      InstCancelKeeps(s);
    } else if a.BoxExits? {
      BoxExitsKeeps(s, a.target);
    } else {
      assert StopStep(s, a) == s;
    }
  }

  lemma LaunchStepKeeps(s: Sys, a: Action)
    requires Inv(s)
    ensures Kept(s, LaunchStep(s, a))
  {
    SameRows(s.db);
    LaunchSide(s, a);
    LaunchBoxes(s, a);
    RecordBoxDb(s);
    RetainBoxDb(s);
    InstanceSideKeeps(s, LaunchStep(s, a));
  }

  lemma StartStepKeeps(s: Sys, a: Action)
    requires Inv(s)
    ensures Kept(s, StartStep(s, a))
  {
    SameRows(s.db);
    StartSide(s, a);
    StartBoxes(s, a);
    ObserveDb(s);
    InstanceSideKeeps(s, StartStep(s, a));
  }

  lemma StopStepKeeps(s: Sys, a: Action)
    requires Inv(s)
    ensures Kept(s, StopStep(s, a))
  {
    SameRows(s.db);
    StopSide(s, a);
    StopBoxes(s, a);
    FinishDb(s);
    RecordFailureDb(s);
    InstanceSideKeeps(s, StopStep(s, a));
  }

  lemma StepKeeps(s: Sys, a: Action)
    requires Inv(s)
    ensures Inv(Step(s, a)) && Evolves(s.db, Step(s, a).db)
  {
    if OfApi(a) {
      ApiKeeps(s, a);
    } else if OfNet(a) {
      NetStepKeeps(s, a);
    } else if OfStart(a) {
      StartStepKeeps(s, a);
    } else if OfStop(a) {
      StopStepKeeps(s, a);
    } else {
      LaunchStepKeeps(s, a);
    }
  }

  /** Every run keeps the invariant, and the database at its end evolved from the one at its start. */
  lemma {:induction false} ExecKeeps(s: Sys, run: seq<Action>)
    requires Inv(s)
    ensures Inv(Exec(s, run)) && Evolves(s.db, Exec(s, run).db)
    decreases |run|
  {
    SameRows(s.db);
    if run != [] {
      StepKeeps(s, run[0]);
      ExecKeeps(Step(s, run[0]), run[1..]);
      EvolvesTransitive(s.db, Step(s, run[0]).db, Exec(s, run).db);
    }
  }
}
