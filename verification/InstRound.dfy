/** An instance sweep over a settled network, with nobody else about and every effect succeeding. */
module InstRound {
  import opened Ipv4
  import opened Keys
  import opened Rows
  import opened Transactions
  import opened StoreInvariant
  import opened Machine
  import opened NetInvariant
  import opened BoxInvariant
  import opened Safety
  import opened NetRound

  // ---- Termination ----

  function TermFirst(id: Id): seq<Action> {
    [InstLoad(id)] + ([DeleteBox(Fine, false)] + [TermSubnet])
  }

  function TermRest(): seq<Action> {
    [TermVpc] + ([DeleteEni(Fine, false)] + [Finish])
  }

  function TermPass(id: Id): seq<Action> {
    TermFirst(id) + TermRest()
  }

  lemma ExecThree(s: Sys, a: Action, b: Action, c: Action)
    ensures Exec(s, [a] + ([b] + [c])) == Step(Step(Step(s, a), b), c)
  {
    ExecPush(s, a, [b] + [c]);
    ExecPush(Step(s, a), b, [c]);
    ExecOne(Step(Step(s, a), b), c);
  }

  lemma LoadAction(s: Sys, id: Id)
    ensures Step(s, InstLoad(id)) == InstLoadStep(s, id)
  {}

  lemma TermActions(s: Sys)
    ensures Step(s, DeleteBox(Fine, false)) == DeleteBoxStep(s, Fine, false)
    ensures Step(s, TermSubnet) == TermSubnetStep(s)
  {}

  lemma TermLateActions(s: Sys)
    ensures Step(s, TermVpc) == TermVpcStep(s)
    ensures Step(s, DeleteEni(Fine, false)) == DeleteEniStep(s, Fine, false)
  {}

  lemma FinishAction(s: Sys)
    ensures Step(s, Finish) == FinishStep(s)
  {}

  lemma TermFirstSteps(s: Sys, id: Id)
    ensures Exec(s, TermFirst(id)) == TermSubnetStep(DeleteBoxStep(InstLoadStep(s, id), Fine, false))
  {
    ExecThree(s, InstLoad(id), DeleteBox(Fine, false), TermSubnet);
    LoadAction(s, id);
    TermActions(InstLoadStep(s, id));
    TermActions(DeleteBoxStep(InstLoadStep(s, id), Fine, false));
  }

  lemma TermRestSteps(s: Sys)
    ensures Exec(s, TermRest()) == FinishStep(DeleteEniStep(TermVpcStep(s), Fine, false))
  {
    ExecThree(s, TermVpc, DeleteEni(Fine, false), Finish);
    TermLateActions(s);
    TermLateActions(TermVpcStep(s));
    FinishAction(DeleteEniStep(TermVpcStep(s), Fine, false));
  }

  /** Only the instance rows, containers, links and the log have moved. */
  predicate NetworkAlone(s: Sys, t: Sys) {
    t.net == s.net && t.spaces == s.spaces && t.db.vpcs == s.db.vpcs && t.db.subnets == s.db.subnets &&
      t.db.issued == s.db.issued
  }

  function BoxesWithout(boxes: map<Id, Box>, runtime: Option<RuntimeId>): map<Id, Box> {
    if runtime.Some? then WithoutBox(boxes, runtime.value) else boxes
  }

  lemma TermReads(s: Sys, id: Id)
    requires s.inst.InstIdle? && id in s.db.instances && s.db.instances[id].deleting &&
             s.db.instances[id].subnet in s.db.subnets
    ensures
      var row := s.db.instances[id];
      TermSubnetStep(DeleteBoxStep(InstLoadStep(s, id), Fine, false)) ==
        s.(boxes := BoxesWithout(s.boxes, row.runtime), inst := EniSubnet(id, row, s.db.subnets[row.subnet]))
  {
    var row := s.db.instances[id];
    var s1 := s.(inst := Removing(id, row));
    assert InstLoadStep(s, id) == s1;
    assert DeleteBoxStep(s1, Fine, false) == s.(boxes := BoxesWithout(s.boxes, row.runtime), inst := BoxGone(id, row));
  }

  lemma FinishCommits(db: Db, id: Id)
    requires id in db.instances && db.instances[id].deleting
    ensures FinishTerminationTx(db, id, db.instances[id]) ==
            Committed(db.(instances := db.instances - {id},
                          events := db.events + [Event(InstanceKind, id, Deleted, Gone, db.instances[id].gen, "")]))
  {}

  /** A terminating instance is gone after one pass. */
  lemma TermPassRemoves(s: Sys, id: Id)
    requires s.inst.InstIdle? && id in s.db.instances && s.db.instances[id].deleting
    requires s.db.instances[id].subnet in s.db.subnets && s.db.subnets[s.db.instances[id].subnet].vpc in s.db.vpcs
    ensures
      var t := Exec(s, TermPass(id));
      && NetworkAlone(s, t) && t.inst.InstIdle? && t.db.instances == s.db.instances - {id}
      && t.boxes == BoxesWithout(s.boxes, s.db.instances[id].runtime)
  {
    ExecJoin(s, TermFirst(id), TermRest());
    TermFirstSteps(s, id);
    TermReads(s, id);
    TermRestSteps(Exec(s, TermFirst(id)));
    FinishCommits(s.db, id);
  }

  // ---- Launch ----

  function FreshRid(minted: map<RuntimeId, Id>): (rid: RuntimeId)
    ensures rid !in minted
  {
    var taken := Listing(minted.Keys);
    assert forall k :: k in minted ==> k in taken;
    if taken == [] then 0 else taken[|taken| - 1] + 1
  }

  function ReadFirst(id: Id): seq<Action> {
    [InstLoad(id)] + ([ReadSubnet] + [ReadVpc])
  }

  function ReadRun(id: Id): seq<Action> {
    ReadFirst(id) + [InspectRunning(Fine)]
  }

  function MakeRun(rid: RuntimeId): seq<Action> {
    [CreateBox(Fine, rid)] + ([RecordBox] + [Reload])
  }

  function HookRun(): seq<Action> {
    [HookCheck] + ([HookPlumb(Fine, false)] + [HookRecheck])
  }

  /** Podman runs the hook only for a container that is not running yet. */
  function StartRun(running: bool): seq<Action> {
    if running then [StartBox(Fine)] else HookRun() + [StartBox(Fine)]
  }

  function ReportRun(): seq<Action> {
    [InspectStarted(Fine)] + [Observe]
  }

  predicate NowRunning(s: Sys, id: Id) {
    id in s.boxes && s.boxes[id].running
  }

  function LaunchPass(s: Sys, id: Id): seq<Action> {
    ReadRun(id) + (MakeRun(FreshRid(s.minted)) + (StartRun(NowRunning(s, id)) + ReportRun()))
  }

  /** The instance can be launched now: its network is converged and its gateway is up. */
  predicate Launchable(s: Sys, id: Id) {
    && id in s.db.instances && !s.db.instances[id].deleting && s.db.instances[id].subnet in s.db.subnets
    && var subnet := s.db.subnets[s.db.instances[id].subnet];
       subnet.vpc in s.db.vpcs && Converged(subnet, s.db.vpcs[subnet.vpc]) && GateUp(s.db.vpcs, s.spaces, subnet)
  }

  /** What the invariant says of a live row and its container. */
  predicate Coherent(s: Sys, id: Id)
    requires id in s.db.instances
  {
    var row := s.db.instances[id];
    if id in s.boxes then row.runtime.None? || row.runtime.value == s.boxes[id].rid else row.runtime.None?
  }

  lemma LiveIsCoherent(s: Sys, id: Id)
    requires BoxesInv(s) && id in s.db.instances && !s.db.instances[id].deleting
    ensures Coherent(s, id)
  {
    if id in s.boxes {
      assert BoxOk(NetOf(s), s.links, id, s.db.instances[id], s.boxes[id]);
    }
  }

  predicate SkipsLaunch(s: Sys, row: Instance) {
    row.state == Running && row.obs == row.gen && row.runtime.Some? && Alive(s, row.runtime.value)
  }

  lemma ReadSubnetAction(s: Sys)
    ensures Step(s, ReadSubnet) == ReadSubnetStep(s)
  {}

  lemma ReadVpcAction(s: Sys)
    ensures Step(s, ReadVpc) == ReadVpcStep(s)
  {}

  lemma InspectAction(s: Sys)
    ensures Step(s, InspectRunning(Fine)) == InspectRunningStep(s, Fine)
  {}

  lemma ReadSteps(s: Sys, id: Id)
    ensures Exec(s, ReadFirst(id)) == ReadVpcStep(ReadSubnetStep(InstLoadStep(s, id)))
  {
    ExecThree(s, InstLoad(id), ReadSubnet, ReadVpc);
    LoadAction(s, id);
    ReadSubnetAction(InstLoadStep(s, id));
    ReadVpcAction(ReadSubnetStep(InstLoadStep(s, id)));
  }

  lemma ReadLands(s: Sys, id: Id)
    requires s.inst.InstIdle? && Launchable(s, id)
    ensures
      var row := s.db.instances[id];
      Exec(s, ReadFirst(id)) ==
        s.(inst := if row.state == Running && row.obs == row.gen && row.runtime.Some? then Checked(id, row)
                   else Creating(id, row))
  {
    var row := s.db.instances[id];
    ReadSteps(s, id);
    assert ReadSubnetStep(InstLoadStep(s, id)) == s.(inst := SubnetRead(id, row, s.db.subnets[row.subnet]));
  }

  lemma InspectLands(s: Sys, id: Id)
    requires s.inst.InstIdle? && Launchable(s, id) && Coherent(s, id)
    ensures Exec(s, ReadRun(id)) ==
            s.(inst := if SkipsLaunch(s, s.db.instances[id]) then InstIdle else Creating(id, s.db.instances[id]))
  {
    var row := s.db.instances[id];
    ReadLands(s, id);
    ExecJoin(s, ReadFirst(id), [InspectRunning(Fine)]);
    ExecOne(Exec(s, ReadFirst(id)), InspectRunning(Fine));
    InspectAction(Exec(s, ReadFirst(id)));
    InspectDecides(s, id, row);
  }

  lemma InspectDecides(s: Sys, id: Id, row: Instance)
    requires id in s.db.instances && row == s.db.instances[id] && Coherent(s, id)
    ensures
      var next := if SkipsLaunch(s, row) then InstIdle else Creating(id, row);
      && (row.runtime.Some? && row.state == Running && row.obs == row.gen ==>
            InspectRunningStep(s.(inst := Checked(id, row)), Fine) == s.(inst := next))
      && InspectRunningStep(s.(inst := Creating(id, row)), Fine) == s.(inst := Creating(id, row))
  {
    if row.runtime.Some? {
      assert Exists(s, row.runtime.value);
    }
  }

  lemma CreateAction(s: Sys, rid: RuntimeId)
    ensures Step(s, CreateBox(Fine, rid)) == CreateBoxStep(s, Fine, rid)
  {}

  lemma RecordActions(s: Sys)
    ensures Step(s, RecordBox) == RecordBoxStep(s)
  {}

  lemma ReloadAction(s: Sys)
    ensures Step(s, Reload) == ReloadStep(s)
  {}

  lemma MakeSteps(s: Sys, rid: RuntimeId)
    ensures Exec(s, MakeRun(rid)) == ReloadStep(RecordBoxStep(CreateBoxStep(s, Fine, rid)))
  {
    ExecThree(s, CreateBox(Fine, rid), RecordBox, Reload);
    CreateAction(s, rid);
    RecordActions(CreateBoxStep(s, Fine, rid));
    ReloadAction(RecordBoxStep(CreateBoxStep(s, Fine, rid)));
  }

  function Made(s: Sys, id: Id, rid: RuntimeId): Box {
    if id in s.boxes then s.boxes[id] else Box(rid, false, false, false)
  }

  function WithRuntime(row: Instance, rid: RuntimeId): Instance {
    row.(runtime := Some(rid))
  }

  /** After Create and its record the row names the container, whether it was found or made. */
  function MadeState(s: Sys, id: Id, rid: RuntimeId): Sys
    requires id in s.db.instances
  {
    var box := Made(s, id, rid);
    var row := WithRuntime(s.db.instances[id], box.rid);
    s.(db := s.db.(instances := s.db.instances[id := row]), boxes := s.boxes[id := box],
       minted := if id in s.boxes then s.minted else s.minted[rid := id], inst := Starting(id, row, box.rid),
       lost := s.lost - {id})
  }

  function CreatedState(s: Sys, id: Id, rid: RuntimeId): Sys
    requires id in s.db.instances
  {
    var box := Made(s, id, rid);
    s.(boxes := s.boxes[id := box], minted := if id in s.boxes then s.minted else s.minted[rid := id],
       inst := CreatedBox(id, s.db.instances[id], box.rid))
  }

  lemma CreateLands(s: Sys, id: Id, rid: RuntimeId)
    requires id in s.db.instances && rid !in s.minted && s.inst == Creating(id, s.db.instances[id])
    ensures CreateBoxStep(s, Fine, rid) == CreatedState(s, id, rid)
  {
    if id in s.boxes {
      assert s.boxes[id := s.boxes[id]] == s.boxes;
    }
  }

  lemma RecordLands(s: Sys, id: Id, row: Instance, rid: RuntimeId)
    requires id in s.db.instances && row == s.db.instances[id] && !row.deleting &&
             (row.runtime.None? || row.runtime.value == rid)
    requires s.inst == CreatedBox(id, row, rid)
    ensures RecordBoxStep(s) ==
            s.(db := s.db.(instances := s.db.instances[id := WithRuntime(row, rid)]), inst := Recorded(id, rid),
               lost := s.lost - {id})
  {}

  lemma ReloadLands(s: Sys, id: Id, rid: RuntimeId)
    requires id in s.db.instances && !s.db.instances[id].deleting && s.inst == Recorded(id, rid)
    ensures ReloadStep(s) == s.(inst := Starting(id, s.db.instances[id], rid))
  {}

  lemma MakeLands(s: Sys, id: Id, rid: RuntimeId)
    requires id in s.db.instances && !s.db.instances[id].deleting && Coherent(s, id) && rid !in s.minted
    requires s.inst == Creating(id, s.db.instances[id])
    ensures Exec(s, MakeRun(rid)) == MadeState(s, id, rid)
  {
    MakeSteps(s, rid);
    CreateLands(s, id, rid);
    var box := Made(s, id, rid);
    RecordLands(CreatedState(s, id, rid), id, s.db.instances[id], box.rid);
    ReloadLands(RecordBoxStep(CreatedState(s, id, rid)), id, box.rid);
  }

  lemma HookSteps(s: Sys)
    ensures Exec(s, HookRun()) == HookRecheckStep(HookPlumbStep(HookCheckStep(s), Fine, false))
  {
    ExecThree(s, HookCheck, HookPlumb(Fine, false), HookRecheck);
    CheckActions(s);
    PlumbAction(HookCheckStep(s));
    CheckActions(HookPlumbStep(HookCheckStep(s), Fine, false));
  }

  lemma CheckActions(s: Sys)
    ensures Step(s, HookCheck) == HookCheckStep(s) && Step(s, HookRecheck) == HookRecheckStep(s)
  {}

  lemma PlumbAction(s: Sys)
    ensures Step(s, HookPlumb(Fine, false)) == HookPlumbStep(s, Fine, false)
  {}

  /** The row the reconciler is starting, with its own container. */
  predicate AboutToStart(s: Sys, id: Id, rid: RuntimeId) {
    Launchable(s, id) && s.db.instances[id].runtime == Some(rid) && id in s.boxes && s.boxes[id].rid == rid
  }

  lemma HookLands(s: Sys, id: Id, rid: RuntimeId)
    requires AboutToStart(s, id, rid) && s.inst == Starting(id, s.db.instances[id], rid) && !s.boxes[id].running
    ensures
      var t := Exec(s, HookRun());
      t == s.(links := t.links, boxes := s.boxes[id := s.boxes[id].(plumbed := true)],
              inst := HookPassed(id, s.db.instances[id], rid))
  {
    var row := s.db.instances[id];
    var subnet := s.db.subnets[row.subnet];
    HookSteps(s);
    var s1 := s.(inst := HookChecked(id, row, rid, row, subnet, s.db.vpcs[subnet.vpc]));
    assert HookVerdict(s) == s1.inst;
    var link := Link(s.db.vpcs[subnet.vpc].index, row.eni.index, id);
    var s2 := s.(links := s.links + {link}, boxes := s.boxes[id := s.boxes[id].(plumbed := true)],
                 inst := HookPlumbed(id, row, rid, row));
    assert HookPlumbStep(s1, Fine, false) == s2;
  }

  lemma StartAction(s: Sys)
    ensures Exec(s, [StartBox(Fine)]) == StartBoxStep(s, Fine)
  {
    ExecOne(s, StartBox(Fine));
  }

  function StartedState(s: Sys, id: Id, snap: Instance, rid: RuntimeId): Sys
    requires id in s.boxes
  {
    s.(boxes := s.boxes[id := s.boxes[id].(started := true, running := true)], inst := Started(id, snap, rid))
  }

  lemma HookedStarts(s: Sys, id: Id, snap: Instance, rid: RuntimeId)
    requires id in s.boxes && s.boxes[id].rid == rid && s.inst == HookPassed(id, snap, rid)
    ensures StartBoxStep(s, Fine) == StartedState(s, id, snap, rid)
  {}

  lemma RunningStarts(s: Sys, id: Id, snap: Instance, rid: RuntimeId)
    requires id in s.boxes && s.boxes[id].rid == rid && s.inst == Starting(id, snap, rid) && s.boxes[id].running
    ensures StartBoxStep(s, Fine) == StartedState(s, id, snap, rid)
  {}

  /** The container runs, and nothing but links and containers has moved. */
  ghost predicate NowStarted(s: Sys, t: Sys, id: Id, rid: RuntimeId)
    requires id in s.db.instances
  {
    && t == s.(links := t.links, boxes := t.boxes, inst := Started(id, s.db.instances[id], rid))
    && id in t.boxes && t.boxes[id].rid == rid && t.boxes[id].running
  }

  lemma StartsByHook(s: Sys, id: Id, rid: RuntimeId)
    requires AboutToStart(s, id, rid) && s.inst == Starting(id, s.db.instances[id], rid) && !s.boxes[id].running
    ensures NowStarted(s, Exec(s, HookRun() + [StartBox(Fine)]), id, rid)
  {
    var hooked := Exec(s, HookRun());
    HookLands(s, id, rid);
    ExecJoin(s, HookRun(), [StartBox(Fine)]);
    StartAction(hooked);
    HookedStarts(hooked, id, s.db.instances[id], rid);
  }

  /** Start leaves the container running, by whichever way. */
  lemma StartRunLands(s: Sys, id: Id, rid: RuntimeId)
    requires AboutToStart(s, id, rid) && s.inst == Starting(id, s.db.instances[id], rid)
    ensures NowStarted(s, Exec(s, StartRun(s.boxes[id].running)), id, rid)
  {
    if s.boxes[id].running {
      StartAction(s);
      RunningStarts(s, id, s.db.instances[id], rid);
    } else {
      StartsByHook(s, id, rid);
    }
  }

  lemma ReportSteps(s: Sys)
    ensures Exec(s, ReportRun()) == ObserveStep(InspectStartedStep(s, Fine))
  {
    ExecPush(s, InspectStarted(Fine), [Observe]);
    ExecOne(InspectStartedStep(s, Fine), Observe);
  }

  predicate Up(i: Instance) {
    !i.deleting && i.state == Running && i.reason == "" && i.obs == i.gen && i.runtime.Some?
  }

  function Observed(db: Db, id: Id): Db
    requires id in db.instances
  {
    if Up(db.instances[id]) then db
    else db.(instances := db.instances[id := SettleInstance(db.instances[id], Running, "", true)],
             events := db.events + [Event(InstanceKind, id, Status, InstanceLabel(Running), db.instances[id].gen, "")])
  }

  lemma ObserveCommits(db: Db, id: Id)
    requires id in db.instances && !db.instances[id].deleting && db.instances[id].runtime.Some?
    ensures RecordInstanceTx(db, id, db.instances[id], Running, "", true) == Committed(Observed(db, id))
  {}

  lemma ReportLands(s: Sys, id: Id, rid: RuntimeId)
    requires id in s.db.instances && !s.db.instances[id].deleting && s.db.instances[id].runtime == Some(rid)
    requires s.inst == Started(id, s.db.instances[id], rid) && id in s.boxes && s.boxes[id].rid == rid &&
             s.boxes[id].running
    ensures Exec(s, ReportRun()) == s.(db := Observed(s.db, id), inst := InstIdle)
  {
    ReportSteps(s);
    ObserveCommits(s.db, id);
    assert Alive(s, rid);
  }

  // ---- The launch pass as a whole ----

  /** After the pass: idle again, the row up, no other row and nothing of the network changed. */
  ghost predicate LaunchedIn(s: Sys, t: Sys, id: Id)
    requires id in s.db.instances
  {
    && NetworkAlone(s, t) && t.inst.InstIdle? && t.db.instances.Keys == s.db.instances.Keys && Up(t.db.instances[id])
    && (forall i :: i in s.db.instances && i != id ==> t.db.instances[i] == s.db.instances[i])
    && (Up(s.db.instances[id]) ==> t.db == s.db)
  }

  lemma IdleStutters(s: Sys, rid: RuntimeId, running: bool)
    requires s.inst.InstIdle?
    ensures Exec(s, MakeRun(rid) + (StartRun(running) + ReportRun())) == s
  {
    MakeSteps(s, rid);
    ExecJoin(s, MakeRun(rid), StartRun(running) + ReportRun());
    ExecJoin(s, StartRun(running), ReportRun());
    IdleStart(s, running);
    ReportSteps(s);
  }

  lemma IdleStart(s: Sys, running: bool)
    requires s.inst.InstIdle?
    ensures Exec(s, StartRun(running)) == s
  {
    ExecOne(s, StartBox(Fine));
    HookSteps(s);
    ExecJoin(s, HookRun(), [StartBox(Fine)]);
  }

  lemma StartAndReport(s: Sys, id: Id, rid: RuntimeId)
    requires AboutToStart(s, id, rid) && s.inst == Starting(id, s.db.instances[id], rid)
    ensures
      var t := Exec(s, StartRun(s.boxes[id].running) + ReportRun());
      NetworkAlone(s, t) && t.inst.InstIdle? && t.db == Observed(s.db, id)
  {
    var started := Exec(s, StartRun(s.boxes[id].running));
    ExecJoin(s, StartRun(s.boxes[id].running), ReportRun());
    StartRunLands(s, id, rid);
    StartedReports(s, started, id, rid);
  }

  lemma StartedReports(s: Sys, started: Sys, id: Id, rid: RuntimeId)
    requires id in s.db.instances && !s.db.instances[id].deleting && s.db.instances[id].runtime == Some(rid)
    requires NowStarted(s, started, id, rid)
    ensures
      var t := Exec(started, ReportRun());
      NetworkAlone(s, t) && t.inst.InstIdle? && t.db == Observed(s.db, id)
  {
    ReportLands(started, id, rid);
  }

  /** The tail of a launch, from a row about to be created or rediscovered. */
  lemma LaunchTail(s: Sys, id: Id, rid: RuntimeId)
    requires Launchable(s, id) && Coherent(s, id) && rid !in s.minted && s.inst == Creating(id, s.db.instances[id])
    ensures
      var t := Exec(s, MakeRun(rid) + (StartRun(NowRunning(s, id)) + ReportRun()));
      && NetworkAlone(s, t) && t.inst.InstIdle? && t.db == Observed(MadeState(s, id, rid).db, id)
  {
    ExecJoin(s, MakeRun(rid), StartRun(NowRunning(s, id)) + ReportRun());
    MakeLands(s, id, rid);
    StartAndReport(MadeState(s, id, rid), id, Made(s, id, rid).rid);
  }

  lemma ObservedRows(db: Db, id: Id, rid: RuntimeId)
    requires id in db.instances && !db.instances[id].deleting
    requires db.instances[id].runtime.Some? ==> db.instances[id].runtime.value == rid
    ensures
      var next := Observed(db.(instances := db.instances[id := WithRuntime(db.instances[id], rid)]), id);
      && next.instances.Keys == db.instances.Keys && Up(next.instances[id])
      && (forall i :: i in db.instances && i != id ==> next.instances[i] == db.instances[i])
      && (Up(db.instances[id]) ==> next == db)
  {
    if Up(db.instances[id]) {
      assert db.instances[id := WithRuntime(db.instances[id], rid)] == db.instances;
    }
  }

  lemma LaunchPassLands(s: Sys, id: Id)
    requires s.inst.InstIdle? && Launchable(s, id) && Coherent(s, id)
    requires s.db.instances[id].state == Running ==> s.db.instances[id].reason == ""
    ensures LaunchedIn(s, Exec(s, LaunchPass(s, id)), id)
  {
    var rid, running := FreshRid(s.minted), NowRunning(s, id);
    ExecJoin(s, ReadRun(id), MakeRun(rid) + (StartRun(running) + ReportRun()));
    InspectLands(s, id);
    if SkipsLaunch(s, s.db.instances[id]) {
      IdleStutters(s.(inst := InstIdle), rid, running);
    } else {
      var c := s.(inst := Creating(id, s.db.instances[id]));
      LaunchTail(c, id, rid);
      ObservedRows(s.db, id, Made(s, id, rid).rid);
    }
  }

  // ---- One pass, whatever the row ----

  function InstPass(s: Sys, id: Id): seq<Action> {
    if id in s.db.instances && s.db.instances[id].deleting then TermPass(id) else LaunchPass(s, id)
  }

  /** Of the rows among `ids`, the terminating ones are gone and the others up; the rest is as before. */
  ghost predicate Converges(a: map<Id, Instance>, b: map<Id, Instance>, ids: set<Id>) {
    && (forall i :: i in b <==> i in a && !(i in ids && a[i].deleting))
    && (forall i :: i in b ==> if i in ids then Up(b[i]) else b[i] == a[i])
  }

  ghost predicate RoundReady(s: Sys) {
    Inv(s) && s.inst.InstIdle? && NetSettled(s.db)
  }

  lemma SettledLaunchable(s: Sys, id: Id)
    requires RoundReady(s) && id in s.db.instances && !s.db.instances[id].deleting
    ensures Launchable(s, id)
  {
    var c := s.db.instances[id].subnet;
    assert c in s.db.subnets;
    assert s.db.subnets[c].vpc in s.db.vpcs;
    assert GateUp(s.db.vpcs, s.spaces, s.db.subnets[c]);
  }

  lemma LiveRow(s: Sys, id: Id)
    requires Inv(s) && id in s.db.instances
    ensures s.db.instances[id].state == Running ==> s.db.instances[id].reason == ""
    ensures s.db.instances[id].subnet in s.db.subnets && s.db.subnets[s.db.instances[id].subnet].vpc in s.db.vpcs
  {
    assert InstanceOk(s.db.issued, id, s.db.instances[id]);
  }

  ghost predicate PassedTo(s: Sys, t: Sys, id: Id)
    requires id in s.db.instances
  {
    NetworkAlone(s, t) && t.inst.InstIdle? && Converges(s.db.instances, t.db.instances, {id}) &&
      (Up(s.db.instances[id]) ==> t.db == s.db)
  }

  lemma TermResult(s: Sys, id: Id)
    requires s.inst.InstIdle? && id in s.db.instances && s.db.instances[id].deleting
    requires s.db.instances[id].subnet in s.db.subnets && s.db.subnets[s.db.instances[id].subnet].vpc in s.db.vpcs
    ensures PassedTo(s, Exec(s, InstPass(s, id)), id)
  {
    TermPassRemoves(s, id);
  }

  lemma LaunchedPassed(s: Sys, t: Sys, id: Id)
    requires id in s.db.instances && !s.db.instances[id].deleting && LaunchedIn(s, t, id)
    ensures PassedTo(s, t, id)
  {}

  lemma PassResult(s: Sys, id: Id)
    requires RoundReady(s) && id in s.db.instances
    ensures PassedTo(s, Exec(s, InstPass(s, id)), id)
  {
    LiveRow(s, id);
    if s.db.instances[id].deleting {
      TermResult(s, id);
    } else {
      SettledLaunchable(s, id);
      LiveIsCoherent(s, id);
      LaunchPassLands(s, id);
      LaunchedPassed(s, Exec(s, LaunchPass(s, id)), id);
    }
  }

  lemma StaysSettled(s: Sys, t: Sys)
    requires NetSettled(s.db) && NetworkAlone(s, t)
    ensures NetSettled(t.db)
  {}

  lemma PassConverges(s: Sys, id: Id)
    requires RoundReady(s) && id in s.db.instances
    ensures RoundReady(Exec(s, InstPass(s, id))) && PassedTo(s, Exec(s, InstPass(s, id)), id)
  {
    PassResult(s, id);
    StaysSettled(s, Exec(s, InstPass(s, id)));
    ExecKeeps(s, InstPass(s, id));
  }

  // ---- A page of passes, and all pages ----

  function InstPasses(s: Sys, ids: seq<Id>): seq<Action>
    decreases |ids|
  {
    if ids == [] then []
    else InstPass(s, ids[0]) + InstPasses(Exec(s, InstPass(s, ids[0])), ids[1..])
  }

  lemma ConvergesThen(a: map<Id, Instance>, b: map<Id, Instance>, c: map<Id, Instance>, p: set<Id>, q: set<Id>)
    requires Converges(a, b, p) && Converges(b, c, q) && p !! q
    ensures Converges(a, c, p + q)
  {}

  lemma ConvergesNone(a: map<Id, Instance>)
    ensures Converges(a, a, {})
  {}

  ghost predicate PageOk(instances: map<Id, Instance>, ids: seq<Id>) {
    Ascending(ids) && forall i :: i in ids ==> i in instances
  }

  lemma PageOkRest(a: map<Id, Instance>, b: map<Id, Instance>, ids: seq<Id>)
    requires PageOk(a, ids) && ids != [] && Converges(a, b, {ids[0]})
    ensures PageOk(b, ids[1..]) && ids[0] !in Among(ids[1..])
  {}

  lemma {:induction false} PassesConverge(s: Sys, ids: seq<Id>)
    requires RoundReady(s) && PageOk(s.db.instances, ids)
    ensures
      var t := Exec(s, InstPasses(s, ids));
      RoundReady(t) && NetworkAlone(s, t) && Converges(s.db.instances, t.db.instances, Among(ids))
    decreases |ids|
  {
    if ids == [] {
      ConvergesNone(s.db.instances);
      assert Among(ids) == {};
    } else {
      var mid := Exec(s, InstPass(s, ids[0]));
      ExecJoin(s, InstPass(s, ids[0]), InstPasses(mid, ids[1..]));
      PassConverges(s, ids[0]);
      PageOkRest(s.db.instances, mid.db.instances, ids);
      PassesConverge(mid, ids[1..]);
      AmongSplit(ids);
      ConvergesThen(s.db.instances, mid.db.instances, Exec(mid, InstPasses(mid, ids[1..])).db.instances, {ids[0]},
                    Among(ids[1..]));
    }
  }
}
