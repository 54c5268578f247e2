/** Every step keeps the network invariant. */
module NetProofs {
  import opened Ipv4
  import opened Keys
  import opened Rows
  import opened Transactions
  import opened StoreInvariant
  import opened TopologyProofs
  import opened Machine
  import opened NetInvariant

  // ---- API requests ----

  lemma DriftTwice(a: Vpc, b: Vpc, c: Vpc)
    requires VpcDrift(a, b) && VpcDrift(b, c)
    ensures VpcDrift(a, c)
  {}

  lemma SubnetDriftTwice(a: Subnet, b: Subnet, c: Subnet)
    requires SubnetDrift(a, b) && SubnetDrift(b, c)
    ensures SubnetDrift(a, c)
  {}

  lemma ApiKeepsPc(issued: seq<Id>, vpcs: map<Id, Vpc>, subnets: map<Id, Subnet>, vpcs': map<Id, Vpc>,
                   subnets': map<Id, Subnet>, spaces: map<Index, set<nat>>, net: NetPc)
    requires SpacesIssued(issued, spaces) && NetPcOk(vpcs, subnets, spaces, net)
    requires VpcsMove(issued, vpcs, vpcs') && SubnetsMove(issued, subnets, subnets')
    requires SubnetRows(issued, subnets)
    ensures NetPcOk(vpcs', subnets', spaces, net)
  {
    if net.NetVpc? || net.NetSnap? || net.NetDone? {
      DriftTwice(net.vpc, vpcs[net.id], vpcs'[net.id]);
    }
    if net.NetSnap? || net.NetDone? {
      forall c | c in net.kids ensures c in subnets' && SubnetDrift(net.kids[c], subnets'[c]) {
        SubnetDriftTwice(net.kids[c], subnets[c], subnets'[c]);
      }
    }
  }

  lemma ApiKeepsGateways(issued: seq<Id>, vpcs: map<Id, Vpc>, subnets: map<Id, Subnet>, vpcs': map<Id, Vpc>,
                         subnets': map<Id, Subnet>, spaces: map<Index, set<nat>>, net: NetPc)
    requires SpacesIssued(issued, spaces) && GatewaysOwned(vpcs, subnets, spaces, net)
    requires VpcsMove(issued, vpcs, vpcs') && SubnetsMove(issued, subnets, subnets')
    ensures GatewaysOwned(vpcs', subnets', spaces, net)
  {
    forall v, g | v in vpcs' && vpcs'[v].index in spaces && g in spaces[vpcs'[v].index]
      ensures Owned(subnets', net, v, g)
    {
      assert v in vpcs;
      assert Owned(subnets, net, v, g);
      var s :| Owner(subnets, net, v, s, g);
      assert Owner(subnets', net, v, s, g);
    }
  }

  lemma ApiKeepsPlumbed(issued: seq<Id>, vpcs: map<Id, Vpc>, subnets: map<Id, Subnet>, vpcs': map<Id, Vpc>,
                        subnets': map<Id, Subnet>, spaces: map<Index, set<nat>>)
    requires AvailablePlumbed(vpcs, subnets, spaces)
    requires VpcsMove(issued, vpcs, vpcs') && SubnetsMove(issued, subnets, subnets')
    ensures AvailablePlumbed(vpcs', subnets', spaces)
  {
    forall s | s in subnets' && subnets'[s].state == Available ensures GateUp(vpcs', spaces, subnets'[s]) {
      assert s in subnets && subnets'[s] == subnets[s];
      assert GateUp(vpcs, spaces, subnets[s]);
    }
  }

  lemma ApiKeepsNet(a: Db, b: Db, spaces: map<Index, set<nat>>, net: NetPc)
    requires NetInv(a.issued, a.vpcs, a.subnets, spaces, net) && SubnetRows(a.issued, a.subnets) && ApiMove(a, b)
    ensures NetInv(b.issued, b.vpcs, b.subnets, spaces, net)
  {
    ApiKeepsPc(a.issued, a.vpcs, a.subnets, b.vpcs, b.subnets, spaces, net);
    ApiKeepsGateways(a.issued, a.vpcs, a.subnets, b.vpcs, b.subnets, spaces, net);
    ApiKeepsPlumbed(a.issued, a.vpcs, a.subnets, b.vpcs, b.subnets, spaces);
  }

  // ---- The pass ----

  /** Only the snapshot the reconciler holds changes; ownership of gateways may lose its `Seen` part. */
  lemma ForgetPass(vpcs: map<Id, Vpc>, subnets: map<Id, Subnet>, spaces: map<Index, set<nat>>, net: NetPc, next: NetPc)
    requires GatewaysOwned(vpcs, subnets, spaces, net)
    requires forall s :: s in subnets && Seen(net, subnets[s].vpc, s) ==> Seen(next, subnets[s].vpc, s)
    ensures GatewaysOwned(vpcs, subnets, spaces, next)
  {
    forall v, g | v in vpcs && vpcs[v].index in spaces && g in spaces[vpcs[v].index]
      ensures Owned(subnets, next, v, g)
    {
      assert Owned(subnets, net, v, g);
      var s :| Owner(subnets, net, v, s, g);
      assert Owner(subnets, next, v, s, g);
    }
  }

  lemma NextPc(issued: seq<Id>, vpcs: map<Id, Vpc>, subnets: map<Id, Subnet>, spaces: map<Index, set<nat>>,
               net: NetPc, next: NetPc)
    requires NetInv(issued, vpcs, subnets, spaces, net) && NetPcOk(vpcs, subnets, spaces, next)
    requires !next.NetSnap? && !next.NetDone?
    ensures NetInv(issued, vpcs, subnets, spaces, next)
  {
    ForgetPass(vpcs, subnets, spaces, net, next);
  }

  ghost predicate NetOk(s: Sys) {
    NetInv(s.db.issued, s.db.vpcs, s.db.subnets, s.spaces, s.net)
  }

  lemma NetLoadKeeps(s: Sys, id: Id)
    requires NetOk(s)
    ensures NetOk(NetLoadStep(s, id))
  {
    ForgetPass(s.db.vpcs, s.db.subnets, s.spaces, s.net, NetLoadStep(s, id).net);
  }

  lemma NetListKeeps(s: Sys)
    requires NetOk(s)
    ensures NetOk(NetListStep(s))
  {
    ForgetPass(s.db.vpcs, s.db.subnets, s.spaces, s.net, NetListStep(s).net);
  }

  lemma NetCancelKeeps(s: Sys)
    requires NetOk(s)
    ensures NetOk(s.(net := NetIdle))
  {
    ForgetPass(s.db.vpcs, s.db.subnets, s.spaces, s.net, NetIdle);
  }

  // ---- The engine ----

  lemma IndexIsVpc(issued: seq<Id>, vpcs: map<Id, Vpc>, v: Id, w: Id)
    requires VpcRows(issued, vpcs) && v in vpcs && w in vpcs && vpcs[v].index == vpcs[w].index
    ensures v == w
  {
    assert VpcOk(issued, v, vpcs[v]) && VpcOk(issued, w, vpcs[w]);
  }

  lemma DriftIdentity(issued: seq<Id>, vpcs: map<Id, Vpc>, id: Id, v: Vpc)
    requires VpcRows(issued, vpcs) && HeldVpc(vpcs, id, v)
    ensures Indexed(issued, id, v.index) && vpcs[id].index == v.index && vpcs[id].cidr == v.cidr
    ensures v.deleting ==> vpcs[id] == v
  {
    assert VpcOk(issued, id, vpcs[id]);
  }

  /** A gateway of the VPC's router that belongs to a subnet not marked for deletion is wanted by the
      pass: its owner was listed, no sibling shares the address, and intent is never revoked. */
  lemma LiveGatewayWanted(vpcs: map<Id, Vpc>, subnets: map<Id, Subnet>, spaces: map<Index, set<nat>>, net: NetPc, s: Id)
    requires net.NetSnap? && HeldKids(subnets, net.id, net.kids) && PlanOk(vpcs, subnets)
    requires GatewaysOwned(vpcs, subnets, spaces, net)
    requires s in subnets && !subnets[s].deleting && subnets[s].vpc == net.id && GateUp(vpcs, spaces, subnets[s])
    ensures Gateway(subnets[s].cidr) in Gateways(net.kids)
  {
    var g := Gateway(subnets[s].cidr);
    assert Owned(subnets, net, net.id, g);
    var t :| Owner(subnets, net, net.id, t, g);
    if t != s {
      SameGatewayOverlaps(vpcs, subnets, s, t);
    }
    assert net.kids[s] == subnets[s];
  }

  lemma SameGatewayOverlaps(vpcs: map<Id, Vpc>, subnets: map<Id, Subnet>, s: Id, t: Id)
    requires PlanOk(vpcs, subnets) && s in subnets && t in subnets && s != t && subnets[s].vpc == subnets[t].vpc
    ensures subnets[s].cidr.bits <= 32 && subnets[t].cidr.bits <= 32
    ensures Gateway(subnets[s].cidr) != Gateway(subnets[t].cidr)
  {
    assert Apart(subnets[s], subnets[t]);
    assert Nested(vpcs, subnets[s]) && Nested(vpcs, subnets[t]);
    GatewayInside(subnets[s].cidr);
    GatewayInside(subnets[t].cidr);
    DisjointRanges(subnets[s].cidr, subnets[t].cidr, Gateway(subnets[s].cidr), Gateway(subnets[t].cidr));
  }

  /** What an engine call that is not a deletion may do to the routers. */
  ghost predicate Regated(before: map<Index, set<nat>>, after: map<Index, set<nat>>, k: Index, desired: set<nat>) {
    && (forall j :: j != k ==> (j in after <==> j in before))
    && (forall j :: j != k && j in before ==> after[j] == before[j])
    && (k in before ==> k in after && before[k] * desired <= after[k])
    && (k in after ==> after[k] <= (if k in before then before[k] else {}) + desired)
  }

  lemma EngineShape(s: Sys, outcome: Outcome, left: Option<set<nat>>)
    requires s.net.NetSnap?
    ensures
      var t := NetEngineStep(s, outcome, left);
      var k := s.net.vpc.index;
      && t.db == s.db && (t == s ||
         (t.net.NetDone? && t.net.id == s.net.id && t.net.vpc == s.net.vpc && t.net.kids == s.net.kids))
      && if s.net.vpc.deleting then t.spaces == s.spaces || t.spaces == s.spaces - {k}
         else Regated(s.spaces, t.spaces, k, Gateways(s.net.kids))
  {}

  /** No engine call takes down the gateway of a subnet that is not marked for deletion. */
  lemma EngineKeepsGates(s: Sys, outcome: Outcome, left: Option<set<nat>>, c: Id)
    requires NetOk(s) && DbInv(s.db)
    requires c in s.db.subnets && !s.db.subnets[c].deleting && GateUp(s.db.vpcs, s.spaces, s.db.subnets[c])
    ensures GateUp(s.db.vpcs, NetEngineStep(s, outcome, left).spaces, s.db.subnets[c])
  {
    if s.net.NetSnap? {
      var row := s.db.subnets[c];
      EngineShape(s, outcome, left);
      DriftIdentity(s.db.issued, s.db.vpcs, s.net.id, s.net.vpc);
      assert !s.db.vpcs[row.vpc].deleting;
      if s.db.vpcs[row.vpc].index == s.net.vpc.index {
        IndexIsVpc(s.db.issued, s.db.vpcs, row.vpc, s.net.id);
        LiveGatewayWanted(s.db.vpcs, s.db.subnets, s.spaces, s.net, c);
      }
    }
  }

  predicate On(spaces: map<Index, set<nat>>, k: Index, g: nat) {
    k in spaces && g in spaces[k]
  }

  /** Addresses that were on the routers before, or that the pass wants, have owners. */
  lemma WantedOwned(vpcs: map<Id, Vpc>, subnets: map<Id, Subnet>, spaces: map<Index, set<nat>>,
                    after: map<Index, set<nat>>, net: NetPc, next: NetPc)
    requires GatewaysOwned(vpcs, subnets, spaces, net) && net.NetSnap? && HeldKids(subnets, net.id, net.kids)
    requires next.NetDone? && next.id == net.id && next.kids == net.kids
    requires forall v, g {:trigger On(after, vpcs[v].index, g)} :: v in vpcs && On(after, vpcs[v].index, g) ==>
               On(spaces, vpcs[v].index, g) || (v == net.id && g in Gateways(net.kids))
    ensures GatewaysOwned(vpcs, subnets, after, next)
  {
    forall v, g | v in vpcs && vpcs[v].index in after && g in after[vpcs[v].index] ensures Owned(subnets, next, v, g) {
      assert On(after, vpcs[v].index, g);
      if On(spaces, vpcs[v].index, g) {
        assert Owned(subnets, net, v, g);
        var c :| Owner(subnets, net, v, c, g);
        assert Owner(subnets, next, v, c, g);
      } else {
        WantedHasOwner(subnets, next, v, net.kids, g);
      }
    }
  }

  lemma EngineOwned(s: Sys, outcome: Outcome, left: Option<set<nat>>)
    requires NetOk(s) && VpcRows(s.db.issued, s.db.vpcs) && s.net.NetSnap?
    ensures
      var t := NetEngineStep(s, outcome, left);
      GatewaysOwned(s.db.vpcs, s.db.subnets, t.spaces, t.net)
  {
    var t := NetEngineStep(s, outcome, left);
    EngineShape(s, outcome, left);
    DriftIdentity(s.db.issued, s.db.vpcs, s.net.id, s.net.vpc);
    forall v, g | v in s.db.vpcs && On(t.spaces, s.db.vpcs[v].index, g)
      ensures On(s.spaces, s.db.vpcs[v].index, g) || (v == s.net.id && g in Gateways(s.net.kids))
    {
      if s.db.vpcs[v].index == s.net.vpc.index {
        IndexIsVpc(s.db.issued, s.db.vpcs, v, s.net.id);
      }
    }
    if t.net.NetDone? {
      WantedOwned(s.db.vpcs, s.db.subnets, s.spaces, t.spaces, s.net, t.net);
    }
  }

  lemma WantedHasOwner(subnets: map<Id, Subnet>, net: NetPc, vpc: Id, kids: map<Id, Subnet>, g: nat)
    requires HeldKids(subnets, vpc, kids) && g in Gateways(kids)
    requires (net.NetSnap? || net.NetDone?) && net.id == vpc ==> net.kids == kids
    ensures Owned(subnets, net, vpc, g)
  {
    var c :| c in kids && !kids[c].deleting && kids[c].cidr.bits <= 32 && Gateway(kids[c].cidr) == g;
    assert SubnetDrift(kids[c], subnets[c]);
    assert Owner(subnets, net, vpc, c, g);
  }

  lemma EnginePlumbed(s: Sys, outcome: Outcome, left: Option<set<nat>>)
    requires NetOk(s) && DbInv(s.db)
    ensures AvailablePlumbed(s.db.vpcs, s.db.subnets, NetEngineStep(s, outcome, left).spaces)
  {
    var t := NetEngineStep(s, outcome, left);
    forall c | c in s.db.subnets && s.db.subnets[c].state == Available
      ensures GateUp(s.db.vpcs, t.spaces, s.db.subnets[c])
    {
      assert SubnetOk(s.db.issued, c, s.db.subnets[c]);
      assert GateUp(s.db.vpcs, s.spaces, s.db.subnets[c]);
      EngineKeepsGates(s, outcome, left, c);
    }
  }

  lemma NetEngineKeeps(s: Sys, outcome: Outcome, left: Option<set<nat>>)
    requires NetOk(s) && DbInv(s.db)
    ensures NetOk(NetEngineStep(s, outcome, left))
  {
    if s.net.NetSnap? {
      DriftIdentity(s.db.issued, s.db.vpcs, s.net.id, s.net.vpc);
      EngineOwned(s, outcome, left);
      EnginePlumbed(s, outcome, left);
    }
  }

  // ---- The commit ----

  lemma HeldAndSame(vpcs: map<Id, Vpc>, subnets: map<Id, Subnet>, id: Id, v: Vpc, kids: map<Id, Subnet>)
    requires HeldVpc(vpcs, id, v) && HeldKids(subnets, id, kids)
    requires vpcs[id].gen == v.gen && SameChildren(KidsOf(subnets, id), kids)
    ensures vpcs[id] == v && KidsOf(subnets, id) == kids
  {
    var now := KidsOf(subnets, id);
    forall c | c in now ensures c in kids && now[c] == kids[c] {
      assert SubnetDrift(kids[c], subnets[c]);
    }
  }

  /** Whenever RecordTopology commits, the rows in the database are exactly the rows the engine was
      given, although the guard compares neither ranges nor states and the two reads were apart. */
  lemma CommitMeansUnchanged(s: Sys)
    requires NetOk(s) && s.net.NetDone?
    requires RecordTopologyTx(s.db, s.net.id, s.net.vpc, s.net.kids, s.net.failure).Committed?
    ensures s.net.id in s.db.vpcs && s.db.vpcs[s.net.id] == s.net.vpc
    ensures KidsOf(s.db.subnets, s.net.id) == s.net.kids
  {
    TopologyShape(s.db, s.net.id, s.net.vpc, s.net.kids, s.net.failure);
    HeldAndSame(s.db.vpcs, s.db.subnets, s.net.id, s.net.vpc, s.net.kids);
  }

  lemma SettledPlumbed(vpcs: map<Id, Vpc>, subnets: map<Id, Subnet>, spaces: map<Index, set<nat>>, id: Id, row: Vpc,
                       state: NetState, reason: string, ok: bool)
    requires AvailablePlumbed(vpcs, subnets, spaces) && PlanOk(vpcs, subnets) && id in vpcs &&
             row.index == vpcs[id].index
    requires state == Available ==> ok && Applied(spaces, row, KidsOf(subnets, id)) && !row.deleting
    ensures AvailablePlumbed(vpcs[id := row], SettledSubnets(subnets, id, state, reason, ok), spaces)
  {
    var next := SettledSubnets(subnets, id, state, reason, ok);
    forall c | c in next && next[c].state == Available ensures GateUp(vpcs[id := row], spaces, next[c]) {
      if subnets[c].vpc == id {
        var kids := KidsOf(subnets, id);
        assert c in kids && !kids[c].deleting;
        assert Nested(vpcs, subnets[c]);
        assert Gateway(kids[c].cidr) in Gateways(kids);
      } else {
        assert GateUp(vpcs, spaces, subnets[c]);
      }
    }
  }

  lemma RemovedPlumbed(vpcs: map<Id, Vpc>, subnets: map<Id, Subnet>, spaces: map<Index, set<nat>>, id: Id)
    requires AvailablePlumbed(vpcs, subnets, spaces) && forall c :: c in subnets ==> subnets[c].vpc != id
    ensures AvailablePlumbed(vpcs - {id}, subnets, spaces)
  {
    forall c | c in subnets && subnets[c].state == Available ensures GateUp(vpcs - {id}, spaces, subnets[c]) {
      assert GateUp(vpcs, spaces, subnets[c]);
    }
  }

  lemma RecordPlumbed(s: Sys)
    requires NetOk(s) && s.net.NetDone? && PlanOk(s.db.vpcs, s.db.subnets)
    requires RecordTopologyTx(s.db, s.net.id, s.net.vpc, s.net.kids, s.net.failure).Committed?
    ensures
      var db := RecordTopologyTx(s.db, s.net.id, s.net.vpc, s.net.kids, s.net.failure).db;
      AvailablePlumbed(db.vpcs, db.subnets, s.spaces)
  {
    var id, ok := s.net.id, s.net.failure.None?;
    TopologyShape(s.db, id, s.net.vpc, s.net.kids, s.net.failure);
    CommitMeansUnchanged(s);
    if s.net.vpc.deleting && ok {
      RemovedPlumbed(s.db.vpcs, s.db.subnets, s.spaces, id);
    } else {
      var state := if ok then Available else Failed;
      var reason := if ok then "" else s.net.failure.value;
      SettledPlumbed(s.db.vpcs, s.db.subnets, s.spaces, id, SettleVpc(s.db.vpcs[id], state, reason, ok), state,
                     reason, ok);
    }
  }

  /** A child whose row was just removed had its address taken off the router first. */
  lemma SettledOwned(vpcs: map<Id, Vpc>, subnets: map<Id, Subnet>, spaces: map<Index, set<nat>>, net: NetPc, id: Id,
                     row: Vpc, state: NetState, reason: string, ok: bool)
    requires GatewaysOwned(vpcs, subnets, spaces, net) && id in vpcs && row.index == vpcs[id].index
    requires ok ==> row.index in spaces && spaces[row.index] == Gateways(KidsOf(subnets, id))
    ensures GatewaysOwned(vpcs[id := row], SettledSubnets(subnets, id, state, reason, ok), spaces, NetIdle)
  {
    var next := SettledSubnets(subnets, id, state, reason, ok);
    forall v, g | v in vpcs && vpcs[v].index in spaces && g in spaces[vpcs[v].index]
      ensures Owned(next, NetIdle, v, g)
    {
      assert Owned(subnets, net, v, g);
      var c :| Owner(subnets, net, v, c, g);
      if c !in next {
        var kids := KidsOf(subnets, id);
        c :| c in kids && !kids[c].deleting && kids[c].cidr.bits <= 32 && Gateway(kids[c].cidr) == g;
      }
      assert Owner(next, NetIdle, v, c, g);
    }
  }

  lemma RemovedOwned(vpcs: map<Id, Vpc>, subnets: map<Id, Subnet>, spaces: map<Index, set<nat>>, id: Id)
    requires GatewaysOwned(vpcs, subnets, spaces, NetIdle)
    ensures GatewaysOwned(vpcs - {id}, subnets, spaces, NetIdle)
  {}

  lemma RecordOwned(s: Sys)
    requires NetOk(s) && s.net.NetDone?
    requires RecordTopologyTx(s.db, s.net.id, s.net.vpc, s.net.kids, s.net.failure).Committed?
    ensures
      var db := RecordTopologyTx(s.db, s.net.id, s.net.vpc, s.net.kids, s.net.failure).db;
      GatewaysOwned(db.vpcs, db.subnets, s.spaces, NetIdle)
  {
    var id, ok := s.net.id, s.net.failure.None?;
    TopologyShape(s.db, id, s.net.vpc, s.net.kids, s.net.failure);
    CommitMeansUnchanged(s);
    if s.net.vpc.deleting && ok {
      ForgetPass(s.db.vpcs, s.db.subnets, s.spaces, s.net, NetIdle);
      RemovedOwned(s.db.vpcs, s.db.subnets, s.spaces, id);
    } else {
      var state := if ok then Available else Failed;
      var reason := if ok then "" else s.net.failure.value;
      SettledOwned(s.db.vpcs, s.db.subnets, s.spaces, s.net, id, SettleVpc(s.db.vpcs[id], state, reason, ok), state,
                   reason, ok);
    }
  }

  lemma NetRecordKeeps(s: Sys)
    requires NetOk(s) && VpcRows(s.db.issued, s.db.vpcs)
    requires PlanOk(s.db.vpcs, s.db.subnets) && SubnetRows(s.db.issued, s.db.subnets)
    ensures NetOk(NetRecordStep(s))
  {
    if s.net.NetDone? {
      ForgetPass(s.db.vpcs, s.db.subnets, s.spaces, s.net, NetIdle);
      if RecordTopologyTx(s.db, s.net.id, s.net.vpc, s.net.kids, s.net.failure).Committed? {
        TopologyShape(s.db, s.net.id, s.net.vpc, s.net.kids, s.net.failure);
        RecordPlumbed(s);
        RecordOwned(s);
      }
    }
  }

  // ---- The orphan sweep ----

  lemma SweepStartKeeps(s: Sys)
    requires NetOk(s)
    ensures NetOk(s.(net := Scanning(-1, {})))
  {
    ForgetPass(s.db.vpcs, s.db.subnets, s.spaces, s.net, Scanning(-1, {}));
  }

  /** Rows at or before the new cursor were noted earlier or are on this page; a row created behind
      the cursor has no namespace, because only the reconciler makes namespaces and it is here. */
  lemma PageNotes(vpcs: map<Id, Vpc>, subnets: map<Id, Subnet>, spaces: map<Index, set<nat>>, after: int,
                  wanted: set<Index>)
    requires Noted(vpcs, spaces, after, wanted)
    ensures NetPcOk(vpcs, subnets, spaces, NextScan(vpcs, after, wanted))
  {
    var page := Page(vpcs.Keys, after, PAGE);
    PageIs(vpcs.Keys, after, PAGE);
    if page != [] {
      var indexes := IndexesOf(vpcs, page);
      forall v | v in vpcs && v <= page[|page| - 1] && vpcs[v].index in spaces
        ensures vpcs[v].index in wanted + indexes
      {
        assert v > after ==> v in page;
      }
    }
  }

  lemma SweepPageKeeps(s: Sys)
    requires NetOk(s)
    ensures NetOk(SweepPageStep(s))
  {
    if s.net.Scanning? {
      var next := NextScan(s.db.vpcs, s.net.after, s.net.wanted);
      PageNotes(s.db.vpcs, s.db.subnets, s.spaces, s.net.after, s.net.wanted);
      NextPc(s.db.issued, s.db.vpcs, s.db.subnets, s.spaces, s.net, next);
    }
  }

  lemma SweepNamesKeeps(s: Sys, names: seq<Index>)
    requires NetOk(s)
    ensures NetOk(SweepNamesStep(s, names))
  {
    ForgetPass(s.db.vpcs, s.db.subnets, s.spaces, s.net, SweepNamesStep(s, names).net);
  }

  /** The sweep only ever removes a namespace that no VPC row owns. */
  lemma SweepDropsOrphansOnly(s: Sys, outcome: Outcome, k: Index)
    requires NetOk(s)
    requires k in s.spaces && k !in SweepDropStep(s, outcome).spaces
    ensures forall v :: v in s.db.vpcs ==> s.db.vpcs[v].index != k
  {}

  lemma DropSpace(vpcs: map<Id, Vpc>, subnets: map<Id, Subnet>, spaces: map<Index, set<nat>>, k: Index, net: NetPc)
    requires GatewaysOwned(vpcs, subnets, spaces, net) && AvailablePlumbed(vpcs, subnets, spaces)
    requires k in spaces ==> forall v :: v in vpcs ==> vpcs[v].index != k
    ensures GatewaysOwned(vpcs, subnets, spaces - {k}, net) && AvailablePlumbed(vpcs, subnets, spaces - {k})
  {
    forall c | c in subnets && subnets[c].state == Available ensures GateUp(vpcs, spaces - {k}, subnets[c]) {
      assert GateUp(vpcs, spaces, subnets[c]);
    }
  }

  lemma SweepDropKeeps(s: Sys, outcome: Outcome)
    requires NetOk(s)
    ensures NetOk(SweepDropStep(s, outcome))
  {
    if s.net.Dropping? {
      var t := SweepDropStep(s, outcome);
      ForgetPass(s.db.vpcs, s.db.subnets, s.spaces, s.net, t.net);
      if s.net.names != [] && s.net.names[0] !in s.net.wanted && outcome.Fine? {
        DropSpace(s.db.vpcs, s.db.subnets, s.spaces, s.net.names[0], t.net);
      }
    }
  }
}
