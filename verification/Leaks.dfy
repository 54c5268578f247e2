/** Where the no-leak promise ends: a pass that is cut off between Create and the commit that records
    the container, when the instance is marked for termination before the cut or before any other pass. */
module Leaks {
  import opened Ipv4
  import opened Rows
  import opened Transactions
  import opened StoreInvariant
  import opened StoreProofs
  import opened Machine
  import opened NetInvariant
  import opened BoxInvariant
  import opened Safety
  import opened Runs
  import opened NetRound
  import opened InstRound
  import opened Convergence

  // ---- What a termination leaves behind, in any run ----

  /** A pass over the instance that may still come to Create, or has just created. */
  predicate Creates(inst: InstPc, i: Id) {
    (inst.Loaded? || inst.SubnetRead? || inst.Checked? || inst.Creating? || inst.CreatedBox? || inst.StaleBox?) &&
      inst.id == i
  }

  /** Marked for termination or already gone, and no pass is making a container for it. */
  predicate Doomed(s: Sys, i: Id) {
    i in s.db.issued && (i in s.db.instances ==> s.db.instances[i].deleting) && !Creates(s.inst, i)
  }

  /** Neither whether the container is lost nor what is being made for it has changed. */
  predicate AsLost(s: Sys, t: Sys, i: Id) {
    (i in t.lost <==> i in s.lost) && !Creates(t.inst, i)
  }

  lemma DoomedStart(s: Sys, a: Action, i: Id)
    requires Doomed(s, i)
    ensures AsLost(s, StartStep(s, a), i)
  {}

  lemma DoomedStop(s: Sys, a: Action, i: Id)
    requires Doomed(s, i)
    ensures AsLost(s, StopStep(s, a), i)
  {}

  lemma DoomedLaunch(s: Sys, a: Action, i: Id)
    requires Doomed(s, i)
    ensures AsLost(s, LaunchStep(s, a), i)
  {}

  lemma DoomedStep(s: Sys, a: Action, i: Id)
    requires Doomed(s, i)
    ensures AsLost(s, Step(s, a), i)
  {
    if OfApi(a) {
      ApiLosesNothing(s, a);
    } else if OfNet(a) {
      NetLosesNothing(s, a);
    } else if OfStart(a) {
      DoomedStart(s, a, i);
    } else if OfStop(a) {
      DoomedStop(s, a, i);
    } else {
      DoomedLaunch(s, a, i);
    }
  }

  lemma DoomedRow(a: Db, b: Db, i: Id)
    requires Evolves(a, b) && i in a.issued && (i in a.instances ==> a.instances[i].deleting)
    ensures i in b.issued && (i in b.instances ==> b.instances[i].deleting)
  {}

  lemma {:induction false} DoomedRun(s: Sys, run: seq<Action>, i: Id)
    requires Inv(s) && Doomed(s, i)
    ensures Doomed(Exec(s, run), i) && (i in Exec(s, run).lost <==> i in s.lost)
    decreases |run|
  {
    if run != [] {
      StepKeeps(s, run[0]);
      DoomedStep(s, run[0], i);
      DoomedRow(s.db, Step(s, run[0]).db, i);
      DoomedRun(Step(s, run[0]), run[1..], i);
    }
  }

  lemma LostMeansUnnamed(s: Sys, i: Id)
    requires BoxesInv(s) && !InWindow(s.inst, i)
    ensures i in s.lost <==> i in s.boxes && !NamesBox(s.db.instances, i)
  {}

  lemma DoomedEnd(s: Sys, run: seq<Action>, i: Id)
    requires Inv(s) && Doomed(s, i) && i !in Exec(s, run).db.instances
    ensures i in Exec(s, run).boxes <==> i in s.lost
  {
    var t := Exec(s, run);
    DoomedRun(s, run, i);
    ExecKeeps(s, run);
    LostMeansUnnamed(t, i);
  }

  /** Once an instance is marked for termination and no pass is on its way to create a container for it:
      whatever happens then (failures, cuts, restarts, other requests, in any order), when its row is
      gone a container of it is left exactly if there was one at the start that the row did not name. */
  lemma TerminationLeaksIff(s: Sys, run: seq<Action>, i: Id)
    requires Reachable(s) && i in s.db.instances && s.db.instances[i].deleting && !Creates(s.inst, i)
    requires i !in Exec(s, run).db.instances
    ensures i in Exec(s, run).boxes <==> i in s.boxes && s.db.instances[i].runtime.None?
  {
    ReachableInv(s);
    InstanceIssued(s.db.issued, s.db.instances, i);
    LostMeansUnnamed(s, i);
    DoomedEnd(s, run, i);
  }

  /** From every state in which the instance is marked, even with a launching pass under way: the
      condition is read off at any later state `Exec(s, first)` in which that pass is past its Create. */
  lemma MarkedLeaksIff(s: Sys, first: seq<Action>, rest: seq<Action>, i: Id)
    requires Reachable(s) && i in s.db.instances && s.db.instances[i].deleting
    requires i in Exec(s, first).db.instances && !Creates(Exec(s, first).inst, i)
    requires i !in Exec(s, first + rest).db.instances
    ensures i in Exec(s, first + rest).boxes <==>
            i in Exec(s, first).boxes && Exec(s, first).db.instances[i].runtime.None?
  {
    ReachableInv(s);
    InstanceIssued(s.db.issued, s.db.instances, i);
    ExecKeeps(s, first);
    DoomedRow(s.db, Exec(s, first).db, i);
    ReachableOn(s, first);
    ExecJoin(s, first, rest);
    TerminationLeaksIff(Exec(s, first), rest, i);
  }

  /** An undisturbed termination pass always removes the row, so it leaks under the same condition. */
  lemma TermPassLeaksIff(s: Sys, i: Id)
    requires Reachable(s) && s.inst.InstIdle? && i in s.db.instances && s.db.instances[i].deleting
    ensures
      var t := Exec(s, TermPass(i));
      i !in t.db.instances && (i in t.boxes <==> i in s.boxes && s.db.instances[i].runtime.None?)
  {
    ReachableInv(s);
    LiveRow(s, i);
    TermPassRemoves(s, i);
    TerminationLeaksIff(s, TermPass(i), i);
  }

  lemma ReachableNext(s: Sys, a: Action)
    requires Reachable(s)
    ensures Reachable(Step(s, a))
  {
    ExecOne(s, a);
    ReachableOn(s, [a]);
  }

  // ---- A run that leaks ----

  lemma MarkedRow(db: Db, i: Id)
    requires i in db.instances && !db.instances[i].deleting
    ensures
      var next := TerminateTx(db, i).0;
      i in next.instances && next.instances[i] == MarkInstance(db.instances[i])
  {}

  lemma TerminateLands(s: Sys, i: Id)
    requires CidrsParse(s.db) && i in s.db.instances && !s.db.instances[i].deleting
    ensures
      var t := Step(s, Terminate(i));
      t == s.(db := t.db) && i in t.db.instances && t.db.instances[i] == MarkInstance(s.db.instances[i])
  {
    MarkedRow(s.db, i);
  }

  lemma CreatedThenCut(s: Sys, i: Id, rid: RuntimeId)
    requires s.inst.Creating? && s.inst.id == i && i !in s.boxes && rid !in s.minted
    ensures
      var t := Step(Step(s, CreateBox(Fine, rid)), InstCancel);
      t.inst.InstIdle? && i in t.boxes && t.db == s.db
  {
    var s1 := s.(boxes := s.boxes[i := Box(rid, false, false, false)], minted := s.minted[rid := i],
                 inst := CreatedBox(i, s.inst.snap, rid));
    assert Step(s, CreateBox(Fine, rid)) == s1;
  }

  /** Cut off right after a first Create: a container that no row names, and nobody at work. */
  lemma CrashAfterCreate(s: Sys, i: Id, rid: RuntimeId)
    requires Reachable(s) && i in s.db.instances && s.inst == Creating(i, s.db.instances[i]) && i !in s.boxes &&
             rid !in s.minted
    ensures
      var t := Step(Step(s, CreateBox(Fine, rid)), InstCancel);
      Reachable(t) && t.inst.InstIdle? && i in t.boxes && t.db == s.db
  {
    CreatedThenCut(s, i, rid);
    ReachableTwice(s, CreateBox(Fine, rid), InstCancel);
  }

  lemma ReachableTwice(s: Sys, a: Action, b: Action)
    requires Reachable(s)
    ensures Reachable(Step(Step(s, a), b))
  {
    ReachableNext(s, a);
    ReachableNext(Step(s, a), b);
  }

  lemma TerminateUnrecorded(s: Sys, i: Id)
    requires Reachable(s) && s.inst.InstIdle? && i in s.boxes
    requires i in s.db.instances && !s.db.instances[i].deleting && s.db.instances[i].runtime.None?
    ensures
      var t := Exec(Step(s, Terminate(i)), TermPass(i));
      i in t.boxes && i !in t.db.instances
  {
    ReachableInv(s);
    PlanParses(s.db);
    TerminateLands(s, i);
    ReachableNext(s, Terminate(i));
    TermPassLeaksIff(Step(s, Terminate(i)), i);
  }

  function LeakRun(s: Sys, i: Id): seq<Action> {
    ([CreateBox(Fine, FreshRid(s.minted))] + ([InstCancel] + [Terminate(i)])) + TermPass(i)
  }

  /** Whatever the state, a crash right after a first Create and then a termination lose the container. */
  lemma CrashThenTerminateLeaks(s: Sys, i: Id)
    requires Reachable(s) && i in s.db.instances && s.inst == Creating(i, s.db.instances[i])
    requires !s.db.instances[i].deleting && s.db.instances[i].runtime.None? && i !in s.boxes
    ensures i in Exec(s, LeakRun(s, i)).boxes && i !in Exec(s, LeakRun(s, i)).db.instances
  {
    var create := CreateBox(Fine, FreshRid(s.minted));
    CrashAfterCreate(s, i, FreshRid(s.minted));
    TerminateUnrecorded(Step(Step(s, create), InstCancel), i);
    ExecThree(s, create, InstCancel, Terminate(i));
    ExecJoin(s, [create] + ([InstCancel] + [Terminate(i)]), TermPass(i));
  }

  function MarkThenCut(s: Sys, i: Id): seq<Action> {
    ([Terminate(i)] + ([CreateBox(Fine, FreshRid(s.minted))] + [InstCancel])) + TermPass(i)
  }

  lemma MarkedThenCut(s: Sys, i: Id, rid: RuntimeId)
    requires Reachable(s) && s.inst.Creating? && s.inst.id == i && i !in s.boxes && rid !in s.minted
    requires i in s.db.instances && s.db.instances[i].deleting && s.db.instances[i].runtime.None?
    ensures
      var t := Exec(Step(Step(s, CreateBox(Fine, rid)), InstCancel), TermPass(i));
      i in t.boxes && i !in t.db.instances
  {
    CreatedThenCut(s, i, rid);
    ReachableTwice(s, CreateBox(Fine, rid), InstCancel);
    TermPassLeaksIff(Step(Step(s, CreateBox(Fine, rid)), InstCancel), i);
  }

  /** The other order: marked while a first Create is under way, with no container yet, and the pass cut
      off right after it. The container is lost although there was none when the instance was marked. */
  lemma TerminateThenCrashLeaks(s: Sys, i: Id)
    requires Reachable(s) && i in s.db.instances && s.inst == Creating(i, s.db.instances[i])
    requires !s.db.instances[i].deleting && s.db.instances[i].runtime.None? && i !in s.boxes
    ensures
      var marked := Step(s, Terminate(i));
      i in marked.db.instances && marked.db.instances[i].deleting && i !in marked.boxes
    ensures i in Exec(s, MarkThenCut(s, i)).boxes && i !in Exec(s, MarkThenCut(s, i)).db.instances
  {
    var create := CreateBox(Fine, FreshRid(s.minted));
    ReachableInv(s);
    PlanParses(s.db);
    TerminateLands(s, i);
    ReachableNext(s, Terminate(i));
    MarkedThenCut(Step(s, Terminate(i)), i, FreshRid(s.minted));
    ExecThree(s, Terminate(i), create, InstCancel);
    ExecJoin(s, [Terminate(i)] + ([create] + [InstCancel]), TermPass(i));
  }

  // ---- From the very beginning ----

  /** Any daemon that has just come up with no leftover namespace, and room for one more index. */
  predicate CleanStart(s: Sys, vpc: Id, subnet: Id, p: Prefix) {
    Initial(s) && s.spaces == map[] && |s.db.issued| < MAX_INDEX && vpc !in s.db.issued && subnet !in s.db.issued &&
      vpc != subnet && Canonical(p)
  }

  function OneVpc(s: Sys, vpc: Id, p: Prefix): Sys {
    Step(s, CreateVpc(vpc, "v", p, "", 0))
  }

  function OneSubnet(s: Sys, vpc: Id, subnet: Id, p: Prefix): Sys {
    Step(OneVpc(s, vpc, p), CreateSubnet(subnet, vpc, "s", p, "local-1a", "", 0))
  }

  lemma FirstVpc(s: Sys, vpc: Id, subnet: Id, p: Prefix)
    requires CleanStart(s, vpc, subnet, p)
    ensures
      var t := OneVpc(s, vpc, p);
      && t == s.(db := t.db) && t.db.issued == s.db.issued + [vpc] && t.db.subnets == map[] && t.db.instances == map[]
      && t.db.vpcs == map[vpc := Vpc("v", p, |s.db.issued| + 1, Pending, "", false, 1, 0)]
  {}

  lemma FirstSubnet(s: Sys, vpc: Id, subnet: Id, p: Prefix)
    requires CleanStart(s, vpc, subnet, p)
    ensures
      var t := OneSubnet(s, vpc, subnet, p);
      && t == s.(db := t.db) && t.db.issued == s.db.issued + [vpc, subnet] && t.db.instances == map[]
      && t.db.vpcs == OneVpc(s, vpc, p).db.vpcs
      && t.db.subnets == map[subnet := Subnet(vpc, "s", p, |s.db.issued| + 2, Pending, "", false, 1, 0)]
  {
    FirstVpc(s, vpc, subnet, p);
    var db := OneVpc(s, vpc, p).db;
    assert CidrsParse(db) && RangeOk(p, p);
    assert CreateSubnetTx(db, subnet, vpc, "s", p, "local-1a", "", 0).0.subnets ==
      map[subnet := NewSubnet(db, vpc, "s", p)];
  }

  lemma FirstRows(s: Sys, vpc: Id, subnet: Id, p: Prefix) returns (t: Sys)
    requires CleanStart(s, vpc, subnet, p)
    ensures Reachable(t) && ReadyToSweep(t, []) && t.inst.InstIdle? && t.boxes == map[] && t.db.instances == map[]
    ensures t.db.issued == s.db.issued + [vpc, subnet] && vpc in t.db.vpcs
    ensures t.db.subnets == map[subnet := Subnet(vpc, "s", p, |s.db.issued| + 2, Pending, "", false, 1, 0)]
  {
    FirstVpc(s, vpc, subnet, p);
    FirstSubnet(s, vpc, subnet, p);
    StartReachable(s);
    ReachableTwice(s, CreateVpc(vpc, "v", p, "", 0), CreateSubnet(subnet, vpc, "s", p, "local-1a", "", 0));
    t := OneSubnet(s, vpc, subnet, p);
    ReachableInv(t);
  }

  /** The network of the first subnet, settled by one sweep. */
  lemma FirstNetwork(s: Sys, vpc: Id, subnet: Id, p: Prefix) returns (t: Sys)
    requires CleanStart(s, vpc, subnet, p)
    ensures Reachable(t) && RoundReady(t) && t.boxes == map[] && t.db.instances == map[] &&
            t.db.issued == s.db.issued + [vpc, subnet]
    ensures subnet in t.db.subnets && !t.db.subnets[subnet].deleting && t.db.subnets[subnet].cidr == p
  {
    var two := FirstRows(s, vpc, subnet, p);
    AfterNetReady(two, []);
    NetSweepSettles(two, []);
    t := AfterNet(two, []);
    ReachableOn(two, NetSweep(two.db.vpcs, []));
    FirstSwept(two, t, vpc, subnet);
  }

  lemma StartReachable(s: Sys)
    requires Initial(s)
    ensures Reachable(s)
  {
    assert Exec(s, []) == s;
  }

  lemma FirstSwept(two: Sys, t: Sys, vpc: Id, subnet: Id)
    requires two.db.subnets.Keys == {subnet} && vpc in two.db.vpcs && Swept(two, t, two.db.vpcs.Keys)
    requires two.db.subnets[subnet].vpc == vpc && !two.db.subnets[subnet].deleting
    ensures t.db.subnets == map[subnet := SettleSubnet(two.db.subnets[subnet], Available, "", true)]
  {}

  lemma RoomForOne(p: Prefix)
    requires Canonical(p)
    ensures NextAddress(p, {}) == Leased(p.addr + 4)
  {
    GatewayInside(p);
  }

  lemma FirstInstance(t: Sys, subnet: Id, i: Id, e: Id)
    requires CidrsParse(t.db) && t.db.instances == map[] && i !in t.db.issued && e !in t.db.issued && i != e
    requires subnet in t.db.subnets && !t.db.subnets[subnet].deleting && Canonical(t.db.subnets[subnet].cidr)
    ensures
      var u := Step(t, RunInstance(i, e, subnet, "i", "", 0));
      && u == t.(db := u.db) && i in u.db.instances && Newborn(u.db.instances[i]) && u.db.vpcs == t.db.vpcs &&
         u.db.subnets == t.db.subnets
  {
    RoomForOne(t.db.subnets[subnet].cidr);
    assert UsedAddresses(t.db.instances, subnet) == {};
  }

  lemma SameNetworkSettled(a: Db, b: Db)
    requires NetSettled(a) && a.vpcs == b.vpcs && a.subnets == b.subnets
    ensures NetSettled(b)
  {}

  lemma FirstRun(net: Sys, subnet: Id, i: Id, e: Id) returns (t: Sys)
    requires Reachable(net) && RoundReady(net) && net.db.instances == map[] && i !in net.db.issued &&
             e !in net.db.issued && i != e
    requires net.boxes == map[] && subnet in net.db.subnets && !net.db.subnets[subnet].deleting &&
             Canonical(net.db.subnets[subnet].cidr)
    ensures Reachable(t) && RoundReady(t) && i in t.db.instances && Newborn(t.db.instances[i]) && t.boxes == map[]
  {
    PlanParses(net.db);
    FirstInstance(net, subnet, i, e);
    t := Step(net, RunInstance(i, e, subnet, "i", "", 0));
    ReachableNext(net, RunInstance(i, e, subnet, "i", "", 0));
    ReachableInv(t);
    SameNetworkSettled(net.db, t.db);
  }

  lemma FirstLaunch(s: Sys, i: Id)
    requires Reachable(s) && RoundReady(s) && i in s.db.instances && Newborn(s.db.instances[i])
    ensures Reachable(Exec(s, ReadFirst(i))) && Exec(s, ReadFirst(i)) == s.(inst := Creating(i, s.db.instances[i]))
  {
    SettledLaunchable(s, i);
    ReadLands(s, i);
    ReachableOn(s, ReadFirst(i));
  }

  /** From any clean start there is a run that ends with a container and no row for it. */
  lemma LeakIsReachable(s: Sys, vpc: Id, subnet: Id, i: Id, e: Id, p: Prefix) returns (t: Sys)
    requires CleanStart(s, vpc, subnet, p) && i !in s.db.issued && e !in s.db.issued
    requires i != e && i != vpc && i != subnet && e != vpc && e != subnet
    ensures Reachable(t) && i in t.boxes && i !in t.db.instances
  {
    var net := FirstNetwork(s, vpc, subnet, p);
    var run := FirstRun(net, subnet, i, e);
    FirstLaunch(run, i);
    var creating := Exec(run, ReadFirst(i));
    CrashThenTerminateLeaks(creating, i);
    ReachableOn(creating, LeakRun(creating, i));
    t := Exec(creating, LeakRun(creating, i));
  }
}
