/** Quiescent convergence: one network sweep and one instance sweep settle everything, and a second
    round finds nothing to do. */
module Convergence {
  import opened Ipv4
  import opened Keys
  import opened Rows
  import opened Transactions
  import opened Machine
  import opened NetInvariant
  import opened Safety
  import opened Runs
  import opened NetRound
  import opened InstRound

  // ---- The instance sweep ----

  /** One pass per instance, in id order. */
  function InstSweep(s: Sys): seq<Action> {
    InstPasses(s, Listing(s.db.instances.Keys))
  }

  function Cursor(ids: seq<Id>, m: nat): int
    requires m <= |ids|
  {
    if m == 0 then -1 else ids[m - 1]
  }

  function Chunk(ids: seq<Id>, m: nat): seq<Id>
    requires m <= |ids|
  {
    if |ids| - m <= PAGE then ids[m..] else ids[m..m + PAGE]
  }

  lemma RestIsListing(ids: seq<Id>, left: set<Id>, m: nat)
    requires Ascending(ids) && m <= |ids| && left <= Among(ids) && forall k :: m <= k < |ids| ==> ids[k] in left
    ensures Listing(After(left, Cursor(ids, m))) == ids[m..]
  {
    var rest := After(left, Cursor(ids, m));
    forall x ensures x in rest <==> x in ids[m..] {
      if x in rest {
        var k :| 0 <= k < |ids| && ids[k] == x;
        assert ids[m..][k - m] == x;
      }
    }
    ListingUnique(Listing(rest), ids[m..]);
  }

  lemma ChunkOfRest(ids: seq<Id>, rest: seq<Id>, m: nat)
    requires m <= |ids| && rest == ids[m..]
    ensures Chunk(ids, m) == if |rest| <= PAGE then rest else rest[..PAGE]
  {}

  /** The page read at the cursor is the next stretch of the listing, although passes have removed
      rows behind the cursor: paging and listing visit the same ids. */
  lemma PagesFollowListing(ids: seq<Id>, left: set<Id>, m: nat)
    requires Ascending(ids) && m <= |ids| && left <= Among(ids) && forall k :: m <= k < |ids| ==> ids[k] in left
    ensures Page(left, Cursor(ids, m), PAGE) == Chunk(ids, m)
  {
    RestIsListing(ids, left, m);
    ChunkOfRest(ids, ids[m..], m);
  }

  lemma InstSweepConverges(s: Sys)
    requires RoundReady(s)
    ensures
      var t := Exec(s, InstSweep(s));
      RoundReady(t) && NetworkAlone(s, t) && Converges(s.db.instances, t.db.instances, s.db.instances.Keys)
  {
    PassesConverge(s, Listing(s.db.instances.Keys));
    AmongListing(s.db.instances.Keys);
  }

  /** In the middle of the sweep over `ids`, after `m` passes, the next page is the next stretch of ids. */
  lemma SweepReadsPages(s: Sys, ids: seq<Id>, m: nat)
    requires RoundReady(s) && PageOk(s.db.instances, ids) && Among(ids) == s.db.instances.Keys && m <= |ids|
    ensures
      var mid := Exec(s, InstPasses(s, ids[..m]));
      Page(mid.db.instances.Keys, Cursor(ids, m), PAGE) == Chunk(ids, m)
  {
    var mid := Exec(s, InstPasses(s, ids[..m]));
    PassesConverge(s, ids[..m]);
    StillAhead(s.db.instances, mid.db.instances, ids, m);
    PagesFollowListing(ids, mid.db.instances.Keys, m);
  }

  lemma StillAhead(a: map<Id, Instance>, b: map<Id, Instance>, ids: seq<Id>, m: nat)
    requires Ascending(ids) && Among(ids) == a.Keys && m <= |ids| && Converges(a, b, Among(ids[..m]))
    ensures b.Keys <= Among(ids) && forall k :: m <= k < |ids| ==> ids[k] in b.Keys
  {
    forall k | m <= k < |ids| ensures ids[k] in b.Keys {
      assert ids[k] in Among(ids);
      assert ids[k] !in ids[..m];
    }
  }

  // ---- A round over a settled state ----

  ghost predicate AllUp(instances: map<Id, Instance>) {
    forall i :: i in instances ==> Up(instances[i])
  }

  lemma {:induction false} QuietChildren(subnets: map<Id, Subnet>, ids: seq<Id>)
    requires forall c :: c in ids ==> c in subnets
    requires forall c :: c in subnets ==>
             !subnets[c].deleting && SettleSubnet(subnets[c], Available, "", true) == subnets[c]
    ensures ChildEvents(subnets, ids, Available, "", true) == []
    decreases |ids|
  {
    if ids != [] {
      QuietChildren(subnets, ids[1..]);
    }
  }

  lemma SettledUnchanged(subnets: map<Id, Subnet>, id: Id)
    requires forall c :: c in subnets ==>
             !subnets[c].deleting && SettleSubnet(subnets[c], Available, "", true) == subnets[c]
    ensures SettledSubnets(subnets, id, Available, "", true) == subnets
  {}

  lemma CommitQuiet(db: Db, id: Id)
    requires id in db.vpcs && NetSettled(db)
    ensures RecordTopologyTx(db, id, db.vpcs[id], KidsOf(db.subnets, id), None) == Committed(db)
  {
    CommitSettled(db, id);
    SettledUnchanged(db.subnets, id);
    QuietChildren(db.subnets, Listing(KidsOf(db.subnets, id).Keys));
    assert db.vpcs[id := db.vpcs[id]] == db.vpcs;
  }

  lemma NetPassQuiet(s: Sys, id: Id)
    requires Inv(s) && s.net.NetIdle? && Small(s.db.vpcs) && NetSettled(s.db)
    ensures Exec(s, NetPass(id)).db == s.db
  {
    if id !in s.db.vpcs {
      PassAbsent(s, id);
    } else {
      PassLive(s, id);
      CommitQuiet(s.db, id);
    }
  }

  lemma {:induction false} NetPassesQuiet(s: Sys, ids: seq<Id>)
    requires Inv(s) && s.net.NetIdle? && Small(s.db.vpcs) && NetSettled(s.db)
    ensures Exec(s, NetPasses(ids)).db == s.db
    decreases |ids|
  {
    if ids != [] {
      ExecJoin(s, NetPass(ids[0]), NetPasses(ids[1..]));
      PassSweeps(s, ids[0]);
      NetPassQuiet(s, ids[0]);
      NetPassesQuiet(Exec(s, NetPass(ids[0])), ids[1..]);
    }
  }

  lemma NetSweepQuiet(s: Sys, names: seq<Index>)
    requires ReadyToSweep(s, names) && NetSettled(s.db)
    ensures Exec(s, NetSweep(s.db.vpcs, names)).db == s.db
  {
    var mid := OrphansGone(s, names);
    NetPassesQuiet(mid, Listing(s.db.vpcs.Keys));
  }

  lemma {:induction false} PassesQuiet(s: Sys, ids: seq<Id>)
    requires RoundReady(s) && AllUp(s.db.instances) && forall i :: i in ids ==> i in s.db.instances
    ensures RoundReady(Exec(s, InstPasses(s, ids))) && Exec(s, InstPasses(s, ids)).db == s.db
    decreases |ids|
  {
    if ids != [] {
      var mid := Exec(s, InstPass(s, ids[0]));
      ExecJoin(s, InstPass(s, ids[0]), InstPasses(mid, ids[1..]));
      PassConverges(s, ids[0]);
      PassesQuiet(mid, ids[1..]);
    }
  }

  lemma InstSweepQuiet(s: Sys)
    requires RoundReady(s) && AllUp(s.db.instances)
    ensures Exec(s, InstSweep(s)).db == s.db
  {
    PassesQuiet(s, Listing(s.db.instances.Keys));
  }

  // ---- One round ----

  function AfterNet(s: Sys, names: seq<Index>): Sys {
    Exec(s, NetSweep(s.db.vpcs, names))
  }

  /** A network sweep that finds the namespaces `names`, then an instance sweep. */
  function Round(s: Sys, names: seq<Index>): seq<Action> {
    NetSweep(s.db.vpcs, names) + InstSweep(AfterNet(s, names))
  }

  ghost predicate Calm(s: Sys, names: seq<Index>) {
    Reachable(s) && s.net.NetIdle? && s.inst.InstIdle? && Small(s.db.vpcs) && Among(names) == s.spaces.Keys
  }

  /** Exactly the live rows are left, all of them up to date. */
  ghost predicate Settled(s: Sys, t: Sys) {
    && NetSettled(t.db) && AllUp(t.db.instances)
    && t.db.vpcs.Keys == (set v | v in s.db.vpcs && !s.db.vpcs[v].deleting)
    && t.db.subnets.Keys == (set c | c in s.db.subnets && !s.db.subnets[c].deleting)
    && t.db.instances.Keys == (set i | i in s.db.instances && !s.db.instances[i].deleting)
  }

  lemma AfterNetReady(s: Sys, names: seq<Index>)
    requires ReadyToSweep(s, names) && s.inst.InstIdle?
    ensures
      var mid := AfterNet(s, names);
      && RoundReady(mid) && mid.db.instances == s.db.instances && NoOrphans(mid.spaces, mid.db.vpcs)
      && mid.net.NetIdle? && Small(mid.db.vpcs)
      && mid.db.vpcs.Keys == (set v | v in s.db.vpcs && !s.db.vpcs[v].deleting)
      && mid.db.subnets.Keys == (set c | c in s.db.subnets && !s.db.subnets[c].deleting)
  {
    NetSweepSettles(s, names);
    SweptSettles(s, AfterNet(s, names));
    SweptStaysSmall(s.db.vpcs, s.db.vpcs.Keys);
  }

  lemma ConvergesAll(a: map<Id, Instance>, b: map<Id, Instance>)
    requires Converges(a, b, a.Keys)
    ensures AllUp(b) && b.Keys == (set i | i in a && !a[i].deleting)
  {}

  lemma SettledAfter(s: Sys, mid: Sys, t: Sys)
    requires mid.db.instances == s.db.instances && NetSettled(mid.db) && NetworkAlone(mid, t)
    requires mid.db.vpcs.Keys == (set v | v in s.db.vpcs && !s.db.vpcs[v].deleting)
    requires mid.db.subnets.Keys == (set c | c in s.db.subnets && !s.db.subnets[c].deleting)
    requires Converges(mid.db.instances, t.db.instances, mid.db.instances.Keys)
    ensures Settled(s, t)
  {
    ConvergesAll(s.db.instances, t.db.instances);
    StaysSettled(mid, t);
  }

  lemma {:induction false} ReachableOn(s: Sys, run: seq<Action>)
    requires Reachable(s)
    ensures Reachable(Exec(s, run))
  {
    var start, before :| Initial(start) && Exec(start, before) == s;
    ExecJoin(start, before, run);
  }

  /** One round settles every row: live ones available or running and observed, deleted ones gone. Any
      listing of the namespaces it leaves is one the next round can start from. */
  lemma RoundSettles(s: Sys, names: seq<Index>)
    requires Calm(s, names)
    ensures
      var t := Exec(s, Round(s, names));
      && Settled(s, t) && RoundReady(t) && NoOrphans(t.spaces, t.db.vpcs)
      && Reachable(t) && t.net.NetIdle? && Small(t.db.vpcs)
  {
    ReachableInv(s);
    var mid := AfterNet(s, names);
    AfterNetReady(s, names);
    ExecJoin(s, NetSweep(s.db.vpcs, names), InstSweep(mid));
    InstSweepConverges(mid);
    SettledAfter(s, mid, Exec(mid, InstSweep(mid)));
    ReachableOn(s, Round(s, names));
  }

  /** A round over a settled state changes no row and appends no event. */
  lemma SettledRoundIsQuiet(s: Sys, names: seq<Index>)
    requires Calm(s, names) && NetSettled(s.db) && AllUp(s.db.instances)
    ensures Exec(s, Round(s, names)).db == s.db
  {
    ReachableInv(s);
    var mid := AfterNet(s, names);
    AfterNetReady(s, names);
    NetSweepQuiet(s, names);
    ExecJoin(s, NetSweep(s.db.vpcs, names), InstSweep(mid));
    InstSweepQuiet(mid);
  }

  /** From any calm state: after one round everything is settled, and a second one changes no row and
      appends no event. */
  lemma SecondRoundIsQuiet(s: Sys, names: seq<Index>, again: seq<Index>)
    requires Calm(s, names) && Among(again) == Exec(s, Round(s, names)).spaces.Keys
    ensures
      var t := Exec(s, Round(s, names));
      Settled(s, t) && Exec(t, Round(t, again)).db == t.db
  {
    RoundSettles(s, names);
    SettledRoundIsQuiet(Exec(s, Round(s, names)), again);
  }

  /** A daemon that starts anew: whatever either reconciler was doing is over. */
  function Restart(): seq<Action> {
    [NetCancel] + [InstCancel]
  }

  lemma RestartCalms(s: Sys, names: seq<Index>)
    requires Reachable(s) && Small(s.db.vpcs) && Among(names) == s.spaces.Keys
    ensures Calm(Exec(s, Restart()), names) && Exec(s, Restart()).db == s.db
  {
    ReachableOn(s, Restart());
    RestartLands(s);
  }

  lemma NetCancelLands(s: Sys)
    ensures Step(s, NetCancel) == s.(net := NetIdle)
  {}

  lemma InstCancelLands(s: Sys)
    ensures Step(s, InstCancel) == InstCancelStep(s)
  {}

  lemma RestartLands(s: Sys)
    ensures Exec(s, Restart()) == InstCancelStep(s.(net := NetIdle))
  {
    ExecPush(s, NetCancel, [InstCancel]);
    NetCancelLands(s);
    ExecOne(s.(net := NetIdle), InstCancel);
    InstCancelLands(s.(net := NetIdle));
  }

  /** From every reachable state, whatever was under way: after a restart one round settles exactly the
      rows there were, and a second one changes nothing. */
  lemma RestartSettles(s: Sys, names: seq<Index>, again: seq<Index>)
    requires Reachable(s) && Small(s.db.vpcs) && Among(names) == s.spaces.Keys
    requires
      var r := Exec(s, Restart());
      Among(again) == Exec(r, Round(r, names)).spaces.Keys
    ensures
      var r := Exec(s, Restart());
      var t := Exec(r, Round(r, names));
      Settled(s, t) && Exec(t, Round(t, again)).db == t.db
  {
    var r := Exec(s, Restart());
    RestartCalms(s, names);
    SecondRoundIsQuiet(r, names, again);
    SettledSameRows(r, s, Exec(r, Round(r, names)));
  }

  lemma SettledSameRows(r: Sys, s: Sys, t: Sys)
    requires r.db == s.db && Settled(r, t)
    ensures Settled(s, t)
  {}

  lemma NetSweepHouses(s: Sys, names: seq<Index>, v: Id)
    requires ReadyToSweep(s, names) && v in s.db.vpcs && !s.db.vpcs[v].deleting
    ensures s.db.vpcs[v].index in AfterNet(s, names).spaces
  {
    var mid := OrphansGone(s, names);
    PassesHouse(mid, Listing(s.db.vpcs.Keys), v);
  }

  lemma SettledRouter(vpcs: map<Id, Vpc>, subnets: map<Id, Subnet>, spaces: map<Index, set<nat>>, net: NetPc, v: Id)
    requires AvailablePlumbed(vpcs, subnets, spaces) && GatewaysOwned(vpcs, subnets, spaces, net)
    requires v in vpcs && vpcs[v].index in spaces
    requires forall c :: c in subnets ==> !subnets[c].deleting && subnets[c].state == Available
    ensures spaces[vpcs[v].index] == Gateways(KidsOf(subnets, v))
  {
    var kids, have := KidsOf(subnets, v), spaces[vpcs[v].index];
    forall g | g in have ensures g in Gateways(kids) {
      assert Owned(subnets, net, v, g);
      var c :| Owner(subnets, net, v, c, g);
      assert c in kids;
    }
    forall g | g in Gateways(kids) ensures g in have {
      var c :| c in kids && kids[c].cidr.bits <= 32 && Gateway(kids[c].cidr) == g;
      assert GateUp(vpcs, spaces, subnets[c]);
    }
  }

  /** After one round the kernel matches the rows: one namespace per live VPC and no other, each with
      exactly the gateways of its live subnets. */
  lemma RoundPlumbs(s: Sys, names: seq<Index>, v: Id)
    requires Calm(s, names) && v in s.db.vpcs && !s.db.vpcs[v].deleting
    ensures
      var t := Exec(s, Round(s, names));
      && v in t.db.vpcs && t.db.vpcs[v].index == s.db.vpcs[v].index && t.db.vpcs[v].index in t.spaces
      && t.spaces[t.db.vpcs[v].index] == Gateways(KidsOf(t.db.subnets, v))
  {
    ReachableInv(s);
    var mid := AfterNet(s, names);
    AfterNetReady(s, names);
    NetSweepPlumbs(s, names, v);
    ExecJoin(s, NetSweep(s.db.vpcs, names), InstSweep(mid));
    InstSweepConverges(mid);
  }

  lemma NetSweepPlumbs(s: Sys, names: seq<Index>, v: Id)
    requires ReadyToSweep(s, names) && s.inst.InstIdle? && v in s.db.vpcs && !s.db.vpcs[v].deleting
    ensures
      var mid := AfterNet(s, names);
      && v in mid.db.vpcs && mid.db.vpcs[v].index == s.db.vpcs[v].index && mid.db.vpcs[v].index in mid.spaces
      && mid.spaces[mid.db.vpcs[v].index] == Gateways(KidsOf(mid.db.subnets, v))
  {
    var mid := AfterNet(s, names);
    AfterNetReady(s, names);
    NetSweepSettles(s, names);
    NetSweepHouses(s, names, v);
    SettledRouter(mid.db.vpcs, mid.db.subnets, mid.spaces, mid.net, v);
  }
}
