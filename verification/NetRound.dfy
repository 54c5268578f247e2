/** A network sweep with nobody else about and every effect succeeding. */
module NetRound {
  import opened Ipv4
  import opened Keys
  import opened Rows
  import opened Transactions
  import opened StoreInvariant
  import opened Machine
  import opened NetProofs
  import opened BoxInvariant
  import opened Safety

  lemma {:induction false} ExecJoin(s: Sys, a: seq<Action>, b: seq<Action>)
    ensures Exec(s, a + b) == Exec(Exec(s, a), b)
    decreases |a|
  {
    if a == [] {
      assert a + b == b;
    } else {
      assert (a + b)[0] == a[0] && (a + b)[1..] == a[1..] + b;
      ExecJoin(Step(s, a[0]), a[1..], b);
    }
  }

  lemma ExecOne(s: Sys, a: Action)
    ensures Exec(s, [a]) == Step(s, a)
  {
    assert Exec(Step(s, a), []) == Step(s, a);
  }

  lemma ExecPush(s: Sys, a: Action, rest: seq<Action>)
    ensures Exec(s, [a] + rest) == Exec(Step(s, a), rest)
  {
    ExecOne(s, a);
    ExecJoin(s, [a], rest);
  }

  // ---- One pass ----

  function NetPass(id: Id): seq<Action> {
    [NetLoad(id)] + ([NetList] + ([NetEngine(Fine, None)] + [NetRecord]))
  }

  lemma NetPassSteps(s: Sys, id: Id)
    ensures Exec(s, NetPass(id)) == NetRecordStep(NetEngineStep(NetListStep(NetLoadStep(s, id)), Fine, None))
  {
    var s1 := NetLoadStep(s, id);
    var s2 := NetListStep(s1);
    var s3 := NetEngineStep(s2, Fine, None);
    ExecPush(s, NetLoad(id), [NetList] + ([NetEngine(Fine, None)] + [NetRecord]));
    ExecPush(s1, NetList, [NetEngine(Fine, None)] + [NetRecord]);
    ExecPush(s2, NetEngine(Fine, None), [NetRecord]);
    ExecOne(s3, NetRecord);
  }

  function SweptVpcs(vpcs: map<Id, Vpc>, ids: set<Id>): map<Id, Vpc> {
    map v | v in vpcs && !(v in ids && vpcs[v].deleting) ::
      if v in ids then SettleVpc(vpcs[v], Available, "", true) else vpcs[v]
  }

  function SweptSubnets(subnets: map<Id, Subnet>, ids: set<Id>): map<Id, Subnet> {
    map c | c in subnets && !(subnets[c].vpc in ids && subnets[c].deleting) ::
      if subnets[c].vpc in ids then SettleSubnet(subnets[c], Available, "", true) else subnets[c]
  }

  lemma SweptTwice(vpcs: map<Id, Vpc>, subnets: map<Id, Subnet>, a: set<Id>, b: set<Id>)
    ensures SweptVpcs(SweptVpcs(vpcs, a), b) == SweptVpcs(vpcs, a + b)
    ensures SweptSubnets(SweptSubnets(subnets, a), b) == SweptSubnets(subnets, a + b)
  {}

  lemma SweptNone(vpcs: map<Id, Vpc>, subnets: map<Id, Subnet>)
    ensures SweptVpcs(vpcs, {}) == vpcs && SweptSubnets(subnets, {}) == subnets
  {}

  lemma SweptAbsent(vpcs: map<Id, Vpc>, subnets: map<Id, Subnet>, id: Id)
    requires id !in vpcs && SubnetRefs(vpcs, subnets)
    ensures SweptVpcs(vpcs, {id}) == vpcs && SweptSubnets(subnets, {id}) == subnets
  {}

  lemma SweptDeleting(vpcs: map<Id, Vpc>, subnets: map<Id, Subnet>, id: Id)
    requires id in vpcs && vpcs[id].deleting && SubnetRefs(vpcs, subnets)
    ensures SweptVpcs(vpcs, {id}) == vpcs - {id} && SweptSubnets(subnets, {id}) == subnets
    ensures KidsOf(subnets, id) == map[]
  {}

  lemma SweptLive(vpcs: map<Id, Vpc>, subnets: map<Id, Subnet>, id: Id)
    requires id in vpcs && !vpcs[id].deleting
    ensures SweptVpcs(vpcs, {id}) == vpcs[id := SettleVpc(vpcs[id], Available, "", true)]
    ensures SweptSubnets(subnets, {id}) == SettledSubnets(subnets, id, Available, "", true)
  {}

  /** What a sweep over `ids` makes of a state: rows swept, everything of the instances left alone. */
  ghost predicate Swept(s: Sys, t: Sys, ids: set<Id>) {
    && t.db.vpcs == SweptVpcs(s.db.vpcs, ids) && t.db.subnets == SweptSubnets(s.db.subnets, ids)
    && t.db.instances == s.db.instances && t.db.issued == s.db.issued && t.db.replays == s.db.replays
    && t.net == s.net && t.inst == s.inst && t.boxes == s.boxes && t.minted == s.minted && t.lost == s.lost &&
       t.links == s.links
  }

  ghost predicate Small(vpcs: map<Id, Vpc>) {
    forall v :: v in vpcs ==> vpcs[v].index <= MAX_INDEX
  }

  lemma NetPassReads(s: Sys, id: Id)
    requires s.net.NetIdle? && id in s.db.vpcs && SubnetRefs(s.db.vpcs, s.db.subnets)
    ensures NetListStep(NetLoadStep(s, id)) == s.(net := NetSnap(id, s.db.vpcs[id], KidsOf(s.db.subnets, id)))
  {
    if s.db.vpcs[id].deleting {
      SweptDeleting(s.db.vpcs, s.db.subnets, id);
    }
  }

  lemma SameKids(kids: map<Id, Subnet>)
    ensures SameChildren(kids, kids)
  {}

  lemma CommitDeleted(db: Db, id: Id)
    requires id in db.vpcs && db.vpcs[id].deleting && KidsOf(db.subnets, id) == map[]
    ensures
      var kids := KidsOf(db.subnets, id);
      RecordTopologyTx(db, id, db.vpcs[id], kids, None) ==
        Committed(db.(vpcs := db.vpcs - {id},
                      events := db.events + [Event(VpcKind, id, Deleted, Gone, db.vpcs[id].gen, "")]))
  {
    SameKids(KidsOf(db.subnets, id));
  }

  lemma CommitSettled(db: Db, id: Id)
    requires id in db.vpcs && !db.vpcs[id].deleting
    ensures
      var commit := RecordTopologyTx(db, id, db.vpcs[id], KidsOf(db.subnets, id), None);
      && commit.Committed?
      && commit.db == db.(vpcs := db.vpcs[id := SettleVpc(db.vpcs[id], Available, "", true)],
                          subnets := SettledSubnets(db.subnets, id, Available, "", true), events := commit.db.events)
      && commit.db.events == db.events +
           (if SettleVpc(db.vpcs[id], Available, "", true) == db.vpcs[id] then []
            else [Event(VpcKind, id, Status, NetLabel(Available), db.vpcs[id].gen, "")]) +
           ChildEvents(db.subnets, Listing(KidsOf(db.subnets, id).Keys), Available, "", true)
  {
    SameKids(KidsOf(db.subnets, id));
  }

  lemma PassDeleting(s: Sys, id: Id)
    requires Inv(s) && s.net.NetIdle? && Small(s.db.vpcs) && id in s.db.vpcs && s.db.vpcs[id].deleting
    ensures
      var t := Exec(s, NetPass(id));
      Swept(s, t, {id}) && t.spaces.Keys == s.spaces.Keys - {s.db.vpcs[id].index}
  {
    var vpc, kids := s.db.vpcs[id], KidsOf(s.db.subnets, id);
    NetPassSteps(s, id);
    NetPassReads(s, id);
    SweptDeleting(s.db.vpcs, s.db.subnets, id);
    forall v | v in s.db.vpcs && s.db.vpcs[v].index == vpc.index ensures s.db.vpcs[v].deleting {
      IndexIsVpc(s.db.issued, s.db.vpcs, v, id);
    }
    NothingInside(s, vpc.index);
    CommitDeleted(s.db, id);
    assert NetEngineStep(s.(net := NetSnap(id, vpc, kids)), Fine, None) ==
           WithoutSpace(s, vpc.index).(net := NetDone(id, vpc, kids, None));
  }

  lemma LiveEngine(s: Sys, id: Id, vpc: Vpc, kids: map<Id, Subnet>)
    requires !vpc.deleting && vpc.index <= MAX_INDEX
    ensures NetEngineStep(s.(net := NetSnap(id, vpc, kids)), Fine, None) ==
            s.(spaces := s.spaces[vpc.index := Gateways(kids)], net := NetDone(id, vpc, kids, None))
  {}

  lemma PassLive(s: Sys, id: Id)
    requires s.net.NetIdle? && Small(s.db.vpcs) && id in s.db.vpcs && !s.db.vpcs[id].deleting &&
             SubnetRefs(s.db.vpcs, s.db.subnets)
    ensures
      var t := Exec(s, NetPass(id));
      var commit := RecordTopologyTx(s.db, id, s.db.vpcs[id], KidsOf(s.db.subnets, id), None);
      Swept(s, t, {id}) && t.spaces.Keys == s.spaces.Keys + {s.db.vpcs[id].index} && commit == Committed(t.db)
  {
    NetPassSteps(s, id);
    NetPassReads(s, id);
    SweptLive(s.db.vpcs, s.db.subnets, id);
    CommitSettled(s.db, id);
    LiveEngine(s, id, s.db.vpcs[id], KidsOf(s.db.subnets, id));
  }

  lemma PassAbsent(s: Sys, id: Id)
    requires Inv(s) && s.net.NetIdle? && id !in s.db.vpcs
    ensures Exec(s, NetPass(id)) == s && Swept(s, s, {id})
  {
    NetPassSteps(s, id);
    SweptAbsent(s.db.vpcs, s.db.subnets, id);
  }

  // ---- All passes of a sweep ----

  function NetPasses(ids: seq<Id>): seq<Action> {
    if ids == [] then [] else NetPass(ids[0]) + NetPasses(ids[1..])
  }

  /** Every namespace belongs to a VPC row. */
  ghost predicate NoOrphans(spaces: map<Index, set<nat>>, vpcs: map<Id, Vpc>) {
    forall k :: k in spaces ==> exists v :: v in vpcs && vpcs[v].index == k
  }

  lemma SweptStaysSmall(vpcs: map<Id, Vpc>, ids: set<Id>)
    requires Small(vpcs)
    ensures Small(SweptVpcs(vpcs, ids))
  {}

  lemma PassSwept(s: Sys, id: Id)
    requires Inv(s) && s.net.NetIdle? && Small(s.db.vpcs)
    ensures Swept(s, Exec(s, NetPass(id)), {id})
  {
    if id !in s.db.vpcs {
      PassAbsent(s, id);
    } else if s.db.vpcs[id].deleting {
      PassDeleting(s, id);
    } else {
      PassLive(s, id);
    }
  }

  lemma PassSweeps(s: Sys, id: Id)
    requires Inv(s) && s.net.NetIdle? && Small(s.db.vpcs)
    ensures
      var t := Exec(s, NetPass(id));
      Inv(t) && Swept(s, t, {id}) && Small(t.db.vpcs)
  {
    ExecKeeps(s, NetPass(id));
    PassSwept(s, id);
    SweptStaysSmall(s.db.vpcs, {id});
  }

  lemma SweptThen(s: Sys, mid: Sys, t: Sys, a: set<Id>, b: set<Id>)
    requires Swept(s, mid, a) && Swept(mid, t, b)
    ensures Swept(s, t, a + b)
  {
    SweptTwice(s.db.vpcs, s.db.subnets, a, b);
  }

  /** A pass makes the namespace of its VPC, or removes it, and touches no other. */
  lemma PassSpaces(s: Sys, id: Id, v: Id)
    requires Inv(s) && s.net.NetIdle? && Small(s.db.vpcs) && v in s.db.vpcs && !s.db.vpcs[v].deleting
    ensures
      var t := Exec(s, NetPass(id));
      (s.db.vpcs[v].index in s.spaces || v == id) ==> s.db.vpcs[v].index in t.spaces
  {
    if id !in s.db.vpcs {
      PassAbsent(s, id);
    } else if s.db.vpcs[id].deleting {
      PassDeleting(s, id);
      if s.db.vpcs[v].index == s.db.vpcs[id].index {
        IndexIsVpc(s.db.issued, s.db.vpcs, v, id);
      }
    } else {
      PassLive(s, id);
    }
  }

  lemma OrphansAfterPass(before: set<Index>, after: map<Index, set<nat>>, vpcs: map<Id, Vpc>, swept: map<Id, Vpc>,
                         id: Id)
    requires forall k :: k in before ==> exists v :: v in vpcs && vpcs[v].index == k
    requires id in vpcs && swept == SweptVpcs(vpcs, {id})
    requires after.Keys == if vpcs[id].deleting then before - {vpcs[id].index} else before + {vpcs[id].index}
    ensures NoOrphans(after, swept)
  {
    forall k | k in after ensures exists v :: v in swept && swept[v].index == k {
      var v :| v in vpcs && vpcs[v].index == k;
      assert v in swept && swept[v].index == k;
    }
  }

  lemma PassLeavesNoOrphans(s: Sys, id: Id)
    requires Inv(s) && s.net.NetIdle? && Small(s.db.vpcs) && NoOrphans(s.spaces, s.db.vpcs)
    ensures NoOrphans(Exec(s, NetPass(id)).spaces, Exec(s, NetPass(id)).db.vpcs)
  {
    var t := Exec(s, NetPass(id));
    if id !in s.db.vpcs {
      PassAbsent(s, id);
    } else if s.db.vpcs[id].deleting {
      PassDeleting(s, id);
      OrphansAfterPass(s.spaces.Keys, t.spaces, s.db.vpcs, t.db.vpcs, id);
    } else {
      PassLive(s, id);
      OrphansAfterPass(s.spaces.Keys, t.spaces, s.db.vpcs, t.db.vpcs, id);
    }
  }

  function Among(ids: seq<Id>): set<Id> {
    set v | v in ids
  }

  lemma AmongSplit(ids: seq<Id>)
    requires ids != []
    ensures Among(ids) == {ids[0]} + Among(ids[1..])
  {}

  lemma {:induction false} PassesSweep(s: Sys, ids: seq<Id>)
    requires Inv(s) && s.net.NetIdle? && Small(s.db.vpcs)
    ensures Swept(s, Exec(s, NetPasses(ids)), Among(ids))
    decreases |ids|
  {
    if ids == [] {
      SweptNone(s.db.vpcs, s.db.subnets);
      assert Among(ids) == {};
    } else {
      var mid := Exec(s, NetPass(ids[0]));
      ExecJoin(s, NetPass(ids[0]), NetPasses(ids[1..]));
      PassSweeps(s, ids[0]);
      PassesSweep(mid, ids[1..]);
      SweptThen(s, mid, Exec(mid, NetPasses(ids[1..])), {ids[0]}, Among(ids[1..]));
      AmongSplit(ids);
    }
  }

  lemma {:induction false} PassesHouse(s: Sys, ids: seq<Id>, v: Id)
    requires Inv(s) && s.net.NetIdle? && Small(s.db.vpcs) && v in s.db.vpcs && !s.db.vpcs[v].deleting
    requires v in ids || s.db.vpcs[v].index in s.spaces
    ensures s.db.vpcs[v].index in Exec(s, NetPasses(ids)).spaces
    decreases |ids|
  {
    if ids != [] {
      var mid := Exec(s, NetPass(ids[0]));
      ExecJoin(s, NetPass(ids[0]), NetPasses(ids[1..]));
      PassSweeps(s, ids[0]);
      PassSpaces(s, ids[0], v);
      PassesHouse(mid, ids[1..], v);
    }
  }

  lemma {:induction false} PassesLeaveNoOrphans(s: Sys, ids: seq<Id>)
    requires Inv(s) && s.net.NetIdle? && Small(s.db.vpcs) && NoOrphans(s.spaces, s.db.vpcs)
    ensures NoOrphans(Exec(s, NetPasses(ids)).spaces, Exec(s, NetPasses(ids)).db.vpcs)
    decreases |ids|
  {
    if ids != [] {
      ExecJoin(s, NetPass(ids[0]), NetPasses(ids[1..]));
      PassSweeps(s, ids[0]);
      PassLeavesNoOrphans(s, ids[0]);
      PassesLeaveNoOrphans(Exec(s, NetPass(ids[0])), ids[1..]);
    }
  }

  // ---- Scan and orphan removal ----

  function Repeat(a: Action, n: nat): seq<Action> {
    if n == 0 then [] else [a] + Repeat(a, n - 1)
  }

  lemma {:induction false} Stutter(s: Sys, a: Action, n: nat)
    requires Step(s, a) == s
    ensures Exec(s, Repeat(a, n)) == s
  {
    if n > 0 {
      ExecPush(s, a, Repeat(a, n - 1));
      Stutter(s, a, n - 1);
    }
  }

  lemma FewerAfter(keys: set<Id>, after: int, next: Id)
    requires next in keys && next > after
    ensures |After(keys, next)| < |After(keys, after)|
  {
    var a, b := After(keys, next), After(keys, after);
    assert next in b - a && b == a + (b - a) && a !! (b - a);
  }

  ghost predicate OwnedIndexes(wanted: set<Index>, vpcs: map<Id, Vpc>) {
    forall k :: k in wanted ==> exists v :: v in vpcs && vpcs[v].index == k
  }

  lemma NextPage(vpcs: map<Id, Vpc>, after: int, wanted: set<Index>)
    requires Small(vpcs) && OwnedIndexes(wanted, vpcs)
    ensures
      var next := NextScan(vpcs, after, wanted);
      || next == Scanned(wanted)
      || (next.Scanning? && OwnedIndexes(next.wanted, vpcs) &&
        |After(vpcs.Keys, next.after)| < |After(vpcs.Keys, after)|)
  {
    var page := Page(vpcs.Keys, after, PAGE);
    PageIs(vpcs.Keys, after, PAGE);
    if page != [] {
      var indexes := IndexesOf(vpcs, page);
      forall k | k in indexes ensures k <= MAX_INDEX && exists v :: v in vpcs && vpcs[v].index == k {
        var v :| v in page && v in vpcs && vpcs[v].index == k;
      }
      FewerAfter(vpcs.Keys, after, page[|page| - 1]);
    }
  }

  lemma PageStep(s: Sys)
    ensures Step(s, SweepPage) ==
            if s.net.Scanning? then s.(net := NextScan(s.db.vpcs, s.net.after, s.net.wanted)) else s
  {}

  /** A scan that can still go wrong nowhere, with a number of rows ahead. */
  ghost predicate Ahead(vpcs: map<Id, Vpc>, net: NetPc, n: nat) {
    (net.Scanning? && OwnedIndexes(net.wanted, vpcs) && |After(vpcs.Keys, net.after)| < n) ||
      (net.Scanned? && OwnedIndexes(net.wanted, vpcs))
  }

  lemma ScanGoesOn(vpcs: map<Id, Vpc>, net: NetPc, n: nat)
    requires net.Scanning? && Small(vpcs) && Ahead(vpcs, net, n)
    ensures n > 0 && Ahead(vpcs, NextScan(vpcs, net.after, net.wanted), n - 1)
  {
    NextPage(vpcs, net.after, net.wanted);
  }

  lemma ScanTurn(s: Sys, n: nat) returns (next: NetPc)
    requires s.net.Scanning? && Small(s.db.vpcs) && Ahead(s.db.vpcs, s.net, n)
    ensures n > 0 && Ahead(s.db.vpcs, next, n - 1)
    ensures Exec(s, Repeat(SweepPage, n)) == Exec(s.(net := next), Repeat(SweepPage, n - 1))
  {
    ScanGoesOn(s.db.vpcs, s.net, n);
    next := NextScan(s.db.vpcs, s.net.after, s.net.wanted);
    PageStep(s);
    ExecPush(s, SweepPage, Repeat(SweepPage, n - 1));
  }

  /** Paging reaches the end whatever the number of rows, having noted only indexes of rows. */
  lemma {:induction false} ScanEnds(s: Sys, n: nat) returns (wanted: set<Index>)
    requires Small(s.db.vpcs) && Ahead(s.db.vpcs, s.net, n)
    ensures OwnedIndexes(wanted, s.db.vpcs) && Exec(s, Repeat(SweepPage, n)) == s.(net := Scanned(wanted))
    decreases n
  {
    if s.net.Scanning? {
      var next := ScanTurn(s, n);
      wanted := ScanEnds(s.(net := next), n - 1);
    } else {
      PageStep(s);
      Stutter(s, SweepPage, n);
      wanted := s.net.wanted;
    }
  }

  function Unwanted(names: seq<Index>, wanted: set<Index>): set<Index> {
    set k | k in names && k !in wanted
  }

  lemma OrphanIsEmpty(s: Sys, k: Index)
    requires Inv(s) && s.net.Dropping? && s.net.names != [] && s.net.names[0] == k && k !in s.net.wanted
    ensures WithoutSpace(s, k).links == s.links
  {
    if k in s.spaces {
      SweepDropsOrphansOnly(s, Fine, k);
      NothingInside(s, k);
    } else {
      forall l | l in s.links ensures l.space != k {
        assert LinkOk(s.db.instances, NetOf(s), l);
      }
    }
  }

  lemma DropOne(s: Sys)
    requires Inv(s) && s.net.Dropping? && s.net.names != []
    ensures
      var t := Step(s, SweepDrop(Fine));
      && t == s.(spaces := t.spaces, net := Dropping(s.net.names[1..], s.net.wanted))
      && t.spaces.Keys == s.spaces.Keys - (if s.net.names[0] in s.net.wanted then {} else {s.net.names[0]})
  {
    var k := s.net.names[0];
    if k !in s.net.wanted {
      OrphanIsEmpty(s, k);
      assert SweepDropStep(s, Fine) == s.(spaces := s.spaces - {k}, net := Dropping(s.net.names[1..], s.net.wanted));
    }
  }

  lemma UnwantedSplit(names: seq<Index>, wanted: set<Index>)
    requires names != []
    ensures Unwanted(names, wanted) == (if names[0] in wanted then {} else {names[0]}) + Unwanted(names[1..], wanted)
  {}

  lemma DropLast(s: Sys)
    requires s.net.Dropping? && s.net.names == []
    ensures Exec(s, [SweepDrop(Fine)]) == s.(net := NetIdle)
  {
    ExecOne(s, SweepDrop(Fine));
  }

  lemma FewerTwice(all: set<Index>, one: set<Index>, rest: set<Index>)
    ensures (all - one) - rest == all - (one + rest)
  {}

  /** What dropping the listed names leaves. */
  ghost predicate DroppedTo(s: Sys, t: Sys, names: seq<Index>, wanted: set<Index>) {
    t == s.(spaces := t.spaces, net := NetIdle) && t.spaces.Keys == s.spaces.Keys - Unwanted(names, wanted)
  }

  lemma DropThen(s: Sys, mid: Sys, t: Sys, names: seq<Index>, wanted: set<Index>)
    requires names != [] && DroppedTo(mid, t, names[1..], wanted)
    requires mid == s.(spaces := mid.spaces, net := mid.net)
    requires mid.spaces.Keys == s.spaces.Keys - (if names[0] in wanted then {} else {names[0]})
    ensures DroppedTo(s, t, names, wanted)
  {
    UnwantedSplit(names, wanted);
    FewerTwice(s.spaces.Keys, if names[0] in wanted then {} else {names[0]}, Unwanted(names[1..], wanted));
  }

  lemma {:induction false} DropEnds(s: Sys)
    requires Inv(s) && s.net.Dropping?
    ensures DroppedTo(s, Exec(s, Repeat(SweepDrop(Fine), |s.net.names| + 1)), s.net.names, s.net.wanted)
    decreases |s.net.names|
  {
    if s.net.names == [] {
      DropLast(s);
      assert Repeat(SweepDrop(Fine), 1) == [SweepDrop(Fine)];
    } else {
      var mid := Step(s, SweepDrop(Fine));
      DropOne(s);
      StepKeeps(s, SweepDrop(Fine));
      ExecPush(s, SweepDrop(Fine), Repeat(SweepDrop(Fine), |s.net.names|));
      DropEnds(mid);
      DropThen(s, mid, Exec(mid, Repeat(SweepDrop(Fine), |s.net.names|)), s.net.names, s.net.wanted);
    }
  }

  // ---- The whole sweep ----

  function ScanRun(vpcs: map<Id, Vpc>): seq<Action> {
    [SweepStart] + Repeat(SweepPage, |vpcs.Keys| + 1)
  }

  function DropRun(names: seq<Index>): seq<Action> {
    [SweepNames(names)] + Repeat(SweepDrop(Fine), |names| + 1)
  }

  /** Sweep with the listing `names`: scan, drop orphans, then one pass per VPC. */
  function NetSweep(vpcs: map<Id, Vpc>, names: seq<Index>): seq<Action> {
    ScanRun(vpcs) + (DropRun(names) + NetPasses(Listing(vpcs.Keys)))
  }

  lemma ScanPhase(s: Sys) returns (wanted: set<Index>)
    requires s.net.NetIdle? && Small(s.db.vpcs)
    ensures OwnedIndexes(wanted, s.db.vpcs) && Exec(s, ScanRun(s.db.vpcs)) == s.(net := Scanned(wanted))
  {
    var t, n := s.(net := Scanning(-1, {})), |s.db.vpcs.Keys| + 1;
    ExecPush(s, SweepStart, Repeat(SweepPage, n));
    assert After(s.db.vpcs.Keys, -1) == s.db.vpcs.Keys;
    wanted := ScanEnds(t, n);
  }

  lemma DropPhase(s: Sys, names: seq<Index>)
    requires Inv(s) && s.net.Scanned? && OwnedIndexes(s.net.wanted, s.db.vpcs) && Among(names) == s.spaces.Keys
    ensures
      var t := Exec(s, DropRun(names));
      t == s.(spaces := t.spaces, net := NetIdle) && NoOrphans(t.spaces, s.db.vpcs)
  {
    var d := s.(net := Dropping(names, s.net.wanted));
    ExecPush(s, SweepNames(names), Repeat(SweepDrop(Fine), |names| + 1));
    NamesTaken(s, names);
    StepKeeps(s, SweepNames(names));
    DropEnds(d);
    OrphansDropped(s.spaces, Exec(s, DropRun(names)).spaces, names, s.net.wanted, s.db.vpcs);
  }

  lemma NamesTaken(s: Sys, names: seq<Index>)
    requires s.net.Scanned? && Among(names) == s.spaces.Keys
    ensures Step(s, SweepNames(names)) == s.(net := Dropping(names, s.net.wanted))
  {}

  lemma OrphansDropped(before: map<Index, set<nat>>, after: map<Index, set<nat>>, names: seq<Index>,
                       wanted: set<Index>, vpcs: map<Id, Vpc>)
    requires OwnedIndexes(wanted, vpcs) && Among(names) == before.Keys &&
             after.Keys == before.Keys - Unwanted(names, wanted)
    ensures NoOrphans(after, vpcs)
  {
    forall k | k in after ensures exists v :: v in vpcs && vpcs[v].index == k {
      assert k in Among(names);
      assert k in wanted;
    }
  }

  /** A swept state in which nothing is left to do for the network. */
  ghost predicate NetSettled(db: Db) {
    && (forall v :: v in db.vpcs ==> !db.vpcs[v].deleting && SettleVpc(db.vpcs[v], Available, "", true) == db.vpcs[v])
    && (forall c :: c in db.subnets ==>
       !db.subnets[c].deleting && SettleSubnet(db.subnets[c], Available, "", true) == db.subnets[c])
  }

  lemma SweptSettles(s: Sys, t: Sys)
    requires Swept(s, t, s.db.vpcs.Keys) && SubnetRefs(s.db.vpcs, s.db.subnets)
    ensures NetSettled(t.db)
    ensures t.db.vpcs.Keys == (set v | v in s.db.vpcs && !s.db.vpcs[v].deleting)
    ensures t.db.subnets.Keys == (set c | c in s.db.subnets && !s.db.subnets[c].deleting)
  {}

  ghost predicate ReadyToSweep(s: Sys, names: seq<Index>) {
    Inv(s) && s.net.NetIdle? && Small(s.db.vpcs) && Among(names) == s.spaces.Keys
  }

  /** Scanning and dropping touch nothing but namespaces that no row owns. */
  lemma OrphansGone(s: Sys, names: seq<Index>) returns (mid: Sys)
    requires ReadyToSweep(s, names)
    ensures mid == s.(spaces := mid.spaces) && Inv(mid) && NoOrphans(mid.spaces, s.db.vpcs)
    ensures Exec(s, NetSweep(s.db.vpcs, names)) == Exec(mid, NetPasses(Listing(s.db.vpcs.Keys)))
  {
    var passes := NetPasses(Listing(s.db.vpcs.Keys));
    var wanted := ScanPhase(s);
    var scanned := s.(net := Scanned(wanted));
    ExecJoin(s, ScanRun(s.db.vpcs), DropRun(names) + passes);
    ExecKeeps(s, ScanRun(s.db.vpcs));
    mid := Exec(scanned, DropRun(names));
    ExecJoin(scanned, DropRun(names), passes);
    ExecKeeps(scanned, DropRun(names));
    DropPhase(scanned, names);
  }

  lemma AmongListing(keys: set<Id>)
    ensures Among(Listing(keys)) == keys
  {}

  lemma SweptFrom(s: Sys, spaces: map<Index, set<nat>>, t: Sys, ids: set<Id>)
    requires Swept(s.(spaces := spaces), t, ids)
    ensures Swept(s, t, ids)
  {}

  /** One network sweep: every live network row is available and observed, every deleted one is gone,
      no namespace is left without a row, and nothing of the instances moved. */
  lemma NetSweepSettles(s: Sys, names: seq<Index>)
    requires ReadyToSweep(s, names)
    ensures
      var t := Exec(s, NetSweep(s.db.vpcs, names));
      Inv(t) && Swept(s, t, s.db.vpcs.Keys) && NoOrphans(t.spaces, t.db.vpcs)
  {
    var mid := OrphansGone(s, names);
    var ids := Listing(s.db.vpcs.Keys);
    var t := Exec(mid, NetPasses(ids));
    ExecKeeps(mid, NetPasses(ids));
    PassesSweep(mid, ids);
    PassesLeaveNoOrphans(mid, ids);
    AmongListing(s.db.vpcs.Keys);
    SweptFrom(s, mid.spaces, t, s.db.vpcs.Keys);
  }
}
