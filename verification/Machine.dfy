/** The control plane as one state machine: API transactions, the two reconcilers, the hook, the
    kernel and the container runtime, taking atomic steps in any order. A store transaction is one
    step because the store has one connection; every engine, runtime or hook call is a step of its
    own, whose outcome the environment chooses. A step that is not enabled changes nothing, so every
    sequence of actions is a run. */
module Machine {
  import opened Ipv4
  import opened Keys
  import opened Rows
  import opened Transactions

  /** A router-side link: its namespace, its ENI index, and the instance its ownership marker names. */
  datatype Link = Link(space: Index, port: Index, owner: Id)

  /** A container. `plumbed` and `started` remember that the hook and Start once succeeded on it. */
  datatype Box = Box(rid: RuntimeId, plumbed: bool, started: bool, running: bool)

  /** Where the network reconciler is, with the snapshots its pass holds. */
  datatype NetPc =
    | NetIdle
    | NetVpc(id: Id, vpc: Vpc)
    | NetSnap(id: Id, vpc: Vpc, kids: map<Id, Subnet>)
    | NetDone(id: Id, vpc: Vpc, kids: map<Id, Subnet>, failure: Option<string>)
    | Scanning(after: int, wanted: set<Index>)
    | Scanned(wanted: set<Index>)
    | Dropping(names: seq<Index>, wanted: set<Index>)

  /** Where the instance reconciler is. */
  datatype InstPc =
    | InstIdle
    | Loaded(id: Id, snap: Instance)
    | SubnetRead(id: Id, snap: Instance, subnet: Subnet)
    | Checked(id: Id, snap: Instance)
    | Creating(id: Id, snap: Instance)
    | CreatedBox(id: Id, snap: Instance, rid: RuntimeId)
    | StaleBox(id: Id, snap: Instance, rid: RuntimeId)
    | CleaningUp(id: Id, rid: RuntimeId, retained: bool)
    | CleanupFailed(id: Id, cause: string)
    | Recorded(id: Id, rid: RuntimeId)
    | Starting(id: Id, snap: Instance, rid: RuntimeId)
    | HookChecked(id: Id, snap: Instance, rid: RuntimeId, seen: Instance, subnet: Subnet, vpc: Vpc)
    | HookPlumbed(id: Id, snap: Instance, rid: RuntimeId, seen: Instance)
    | HookPassed(id: Id, snap: Instance, rid: RuntimeId)
    | Started(id: Id, snap: Instance, rid: RuntimeId)
    | Observing(id: Id, snap: Instance)
    | Removing(id: Id, snap: Instance)
    | BoxGone(id: Id, snap: Instance)
    | EniSubnet(id: Id, snap: Instance, subnet: Subnet)
    | EniVpc(id: Id, snap: Instance, vpc: Vpc)
    | Finishing(id: Id, snap: Instance)
    | Failing(id: Id, snap: Instance, cause: string)

  /** `minted` is every container id ever handed out, with the instance it was made for. `lost` holds
      the instances whose container no row names any more or yet, because a pass was cut off between
      Create and the commit of its id; a later pass that records the container takes it out again. */
  datatype Sys = Sys(db: Db, spaces: map<Index, set<nat>>, links: set<Link>, boxes: map<Id, Box>,
                     minted: map<RuntimeId, Id>, net: NetPc, inst: InstPc, lost: set<Id>)

  datatype Outcome = Fine | Fails(cause: string)

  datatype Action =
    // API requests
    | CreateVpc(newId: Id, name: string, raw: Prefix, key: string, now: int)
    | DeleteVpc(target: Id)
    | CreateSubnet(newId: Id, parent: Id, name: string, raw: Prefix, zone: string, key: string, now: int)
    | DeleteSubnet(target: Id)
    | RunInstance(newId: Id, eniId: Id, parent: Id, name: string, key: string, now: int)
    | Terminate(target: Id)
    // Network reconciler
    | NetLoad(target: Id)
    | NetList
    | NetEngine(outcome: Outcome, left: Option<set<nat>>)
    | NetRecord
    | NetCancel
    | SweepStart
    | SweepPage
    | SweepNames(names: seq<Index>)
    | SweepDrop(outcome: Outcome)
    // Instance reconciler
    | InstLoad(target: Id)
    | ReadSubnet
    | ReadVpc
    | InspectRunning(outcome: Outcome)
    | CreateBox(outcome: Outcome, offered: RuntimeId)
    | RecordBox
    | RetainBox
    | CleanUp(outcome: Outcome, gone: bool)
    | ReloadFailed
    | Reload
    | HookCheck
    | HookPlumb(outcome: Outcome, stays: bool)
    | HookRecheck
    | StartBox(outcome: Outcome)
    | InspectStarted(outcome: Outcome)
    | Observe
    | DeleteBox(outcome: Outcome, gone: bool)
    | TermSubnet
    | TermVpc
    | DeleteEni(outcome: Outcome, gone: bool)
    | Finish
    | RecordFailure
    | InstCancel
    // The container's own process ends, and its link with it
    | BoxExits(target: Id)

  const PAGE: nat := 100

  // ---- Network reconciler ----

  function Gateways(kids: map<Id, Subnet>): set<nat> {
    set c | c in kids && !kids[c].deleting && kids[c].cidr.bits <= 32 :: Gateway(kids[c].cidr)
  }

  function NetLoadStep(s: Sys, id: Id): Sys {
    if !s.net.NetIdle? || id !in s.db.vpcs then s
    else s.(net := NetVpc(id, s.db.vpcs[id]))
  }

  /** The children are read after, and apart from, the VPC row. */
  function NetListStep(s: Sys): Sys {
    if !s.net.NetVpc? then s
    else
      var kids := KidsOf(s.db.subnets, s.net.id);
      if s.net.vpc.deleting && kids != map[] then s.(net := NetIdle)
      else s.(net := NetSnap(s.net.id, s.net.vpc, kids))
  }

  /** What an engine call that ran to an error may leave of the gateways: the namespace itself, if
      it was there, and every address that was there and is wanted. */
  predicate Interrupted(before: map<Index, set<nat>>, k: Index, desired: set<nat>, left: Option<set<nat>>) {
    match left
    case None => k !in before
    case Some(after) =>
      var had := if k in before then before[k] else {};
      had * desired <= after <= had + desired
  }

  function WithoutSpace(s: Sys, k: Index): Sys {
    s.(spaces := s.spaces - {k}, links := set l | l in s.links && l.space != k)
  }

  function NetEngineStep(s: Sys, outcome: Outcome, left: Option<set<nat>>): Sys {
    if !s.net.NetSnap? || (outcome.Fine? && s.net.vpc.index > MAX_INDEX) then s
    else
      var k := s.net.vpc.index;
      var done := failure => NetDone(s.net.id, s.net.vpc, s.net.kids, failure);
      if s.net.vpc.deleting then
        match outcome
        case Fine => WithoutSpace(s, k).(net := done(None))
        // Unmounting may succeed and the removal of the mount point fail.
        case Fails(cause) => (if left.None? then WithoutSpace(s, k) else s).(net := done(Some(cause)))
      else
        match outcome
        case Fine => s.(spaces := s.spaces[k := Gateways(s.net.kids)], net := done(None))
        case Fails(cause) =>
          if !Interrupted(s.spaces, k, Gateways(s.net.kids), left) then s
          else s.(spaces := if left.None? then s.spaces else s.spaces[k := left.value], net := done(Some(cause)))
  }

  function NetRecordStep(s: Sys): Sys {
    if !s.net.NetDone? then s
    else
      match RecordTopologyTx(s.db, s.net.id, s.net.vpc, s.net.kids, s.net.failure)
      case Committed(db) => s.(db := db, net := NetIdle)
      case _ => s.(net := NetIdle)
  }

  // ---- Orphan sweep ----

  function IndexesOf(vpcs: map<Id, Vpc>, page: seq<Id>): set<Index> {
    set v | v in page && v in vpcs :: vpcs[v].index
  }

  predicate Oversized(indexes: set<Index>) {
    exists k :: k in indexes && k > MAX_INDEX
  }

  function NextScan(vpcs: map<Id, Vpc>, after: int, wanted: set<Index>): (r: NetPc)
    ensures r.NetIdle? || r.Scanning? || r.Scanned?
  {
    var page := Page(vpcs.Keys, after, PAGE);
    if page == [] then Scanned(wanted)
    else
      var indexes := IndexesOf(vpcs, page);
      if Oversized(indexes) then NetIdle
      else Scanning(page[|page| - 1], wanted + indexes)
  }

  function SweepPageStep(s: Sys): Sys {
    if !s.net.Scanning? then s
    else s.(net := NextScan(s.db.vpcs, s.net.after, s.net.wanted))
  }

  /** The listing holds every namespace that exists now, in some order. */
  function SweepNamesStep(s: Sys, names: seq<Index>): Sys {
    if !s.net.Scanned? || (set k | k in names) != s.spaces.Keys then s
    else s.(net := Dropping(names, s.net.wanted))
  }

  function SweepDropStep(s: Sys, outcome: Outcome): Sys {
    if !s.net.Dropping? then s
    else if s.net.names == [] then s.(net := NetIdle)
    else
      var k, rest := s.net.names[0], Dropping(s.net.names[1..], s.net.wanted);
      if k in s.net.wanted then s.(net := rest)
      else if outcome.Fails? then s.(net := NetIdle)
      else WithoutSpace(s, k).(net := rest)
  }

  // ---- Instance reconciler ----

  function InstLoadStep(s: Sys, id: Id): Sys {
    if !s.inst.InstIdle? || id !in s.db.instances then s
    else if s.db.instances[id].deleting then s.(inst := Removing(id, s.db.instances[id]))
    else s.(inst := Loaded(id, s.db.instances[id]))
  }

  function ReadSubnetStep(s: Sys): Sys {
    if !s.inst.Loaded? then s
    else if s.inst.snap.subnet !in s.db.subnets then s.(inst := Failing(s.inst.id, s.inst.snap, "no subnet"))
    else s.(inst := SubnetRead(s.inst.id, s.inst.snap, s.db.subnets[s.inst.snap.subnet]))
  }

  predicate Converged(subnet: Subnet, vpc: Vpc) {
    !subnet.deleting && !vpc.deleting && subnet.state == Available && vpc.state == Available &&
    subnet.obs == subnet.gen && vpc.obs == vpc.gen
  }

  function ReadVpcStep(s: Sys): Sys {
    if !s.inst.SubnetRead? then s
    else if s.inst.subnet.vpc !in s.db.vpcs then s.(inst := Failing(s.inst.id, s.inst.snap, "no VPC"))
    else if !Converged(s.inst.subnet, s.db.vpcs[s.inst.subnet.vpc]) then s.(inst := InstIdle)
    else if s.inst.snap.state == Running && s.inst.snap.obs == s.inst.snap.gen && s.inst.snap.runtime.Some? then
      s.(inst := Checked(s.inst.id, s.inst.snap))
    else s.(inst := Creating(s.inst.id, s.inst.snap))
  }

  predicate Alive(s: Sys, rid: RuntimeId) {
    exists i :: i in s.boxes && s.boxes[i].rid == rid && s.boxes[i].running
  }

  predicate Exists(s: Sys, rid: RuntimeId) {
    exists i :: i in s.boxes && s.boxes[i].rid == rid
  }

  function InspectRunningStep(s: Sys, outcome: Outcome): Sys {
    if !s.inst.Checked? || s.inst.snap.runtime.None? then s
    else if outcome.Fails? then s.(inst := Failing(s.inst.id, s.inst.snap, outcome.cause))
    else if !Exists(s, s.inst.snap.runtime.value) then s
    else if Alive(s, s.inst.snap.runtime.value) then s.(inst := InstIdle)
    else s.(inst := Creating(s.inst.id, s.inst.snap))
  }

  /** Create rediscovers the instance's container if there is one, and errs only if it made none. */
  function CreateBoxStep(s: Sys, outcome: Outcome, offered: RuntimeId): Sys {
    if !s.inst.Creating? then s
    else if outcome.Fails? then s.(inst := Failing(s.inst.id, s.inst.snap, outcome.cause))
    else if s.inst.id in s.boxes then s.(inst := CreatedBox(s.inst.id, s.inst.snap, s.boxes[s.inst.id].rid))
    else if offered in s.minted then s
    else s.(boxes := s.boxes[s.inst.id := Box(offered, false, false, false)], minted := s.minted[offered := s.inst.id],
            inst := CreatedBox(s.inst.id, s.inst.snap, offered))
  }

  function RecordBoxStep(s: Sys): Sys {
    if !s.inst.CreatedBox? then s
    else
      match RecordRuntimeTx(s.db, s.inst.id, s.inst.snap.gen, s.inst.rid)
      case Committed(db) => s.(db := db, inst := Recorded(s.inst.id, s.inst.rid), lost := s.lost - {s.inst.id})
      case _ => s.(inst := StaleBox(s.inst.id, s.inst.snap, s.inst.rid))
  }

  function RetainBoxStep(s: Sys): Sys {
    if !s.inst.StaleBox? then s
    else
      match RetainRuntimeTx(s.db, s.inst.id, s.inst.rid)
      case Committed(db) => s.(db := db, inst := CleaningUp(s.inst.id, s.inst.rid, true), lost := s.lost - {s.inst.id})
      case _ => s.(inst := CleaningUp(s.inst.id, s.inst.rid, false))
  }

  function WithoutBox(boxes: map<Id, Box>, rid: RuntimeId): map<Id, Box> {
    map i | i in boxes && boxes[i].rid != rid :: boxes[i]
  }

  function CleanUpStep(s: Sys, outcome: Outcome, gone: bool): Sys {
    if !s.inst.CleaningUp? then s
    else if outcome.Fine? then s.(boxes := WithoutBox(s.boxes, s.inst.rid), inst := InstIdle)
    else
      var t := if gone then s.(boxes := WithoutBox(s.boxes, s.inst.rid)) else s;
      t.(inst := if s.inst.retained then CleanupFailed(s.inst.id, outcome.cause) else InstIdle)
  }

  function ReloadFailedStep(s: Sys): Sys {
    if !s.inst.CleanupFailed? then s
    else if s.inst.id !in s.db.instances then s.(inst := InstIdle)
    else s.(inst := Failing(s.inst.id, s.db.instances[s.inst.id], s.inst.cause))
  }

  function ReloadStep(s: Sys): Sys {
    if !s.inst.Recorded? then s
    else if s.inst.id !in s.db.instances || s.db.instances[s.inst.id].deleting then s.(inst := InstIdle)
    else s.(inst := Starting(s.inst.id, s.db.instances[s.inst.id], s.inst.rid))
  }

  // The hook runs inside Start, on behalf of the container being started.

  function StartFailed(s: Sys, cause: string): Sys
    requires s.inst.Starting? || s.inst.HookChecked? || s.inst.HookPlumbed? || s.inst.HookPassed?
  {
    s.(inst := Failing(s.inst.id, s.inst.snap, cause))
  }

  function HookVerdict(s: Sys): InstPc
    requires s.inst.Starting?
  {
    var refuse := cause => Failing(s.inst.id, s.inst.snap, cause);
    if s.inst.id !in s.db.instances then refuse("unknown instance")
    else
      var seen := s.db.instances[s.inst.id];
      if seen.deleting || seen.runtime != Some(s.inst.rid) then refuse("identity mismatch")
      else if seen.subnet !in s.db.subnets || s.db.subnets[seen.subnet].vpc !in s.db.vpcs then refuse("no network")
      else
        var subnet := s.db.subnets[seen.subnet];
        var vpc := s.db.vpcs[subnet.vpc];
        if !Converged(subnet, vpc) then refuse("not converged")
        else HookChecked(s.inst.id, s.inst.snap, s.inst.rid, seen, subnet, vpc)
  }

  function HookCheckStep(s: Sys): Sys {
    if !s.inst.Starting? || (s.inst.id in s.boxes && s.boxes[s.inst.id].running) then s
    else s.(inst := HookVerdict(s))
  }

  predicate PlumbReady(s: Sys, subnet: Subnet, vpc: Vpc) {
    subnet.cidr.bits <= 32 && vpc.index in s.spaces && Gateway(subnet.cidr) in s.spaces[vpc.index]
  }

  /** EnsureENI finds the subnet's gateway before it creates the link; a failed call tries to take
      its new link down again, which may itself fail. */
  function HookPlumbStep(s: Sys, outcome: Outcome, stays: bool): Sys {
    if !s.inst.HookChecked? then s
    else
      var link := Link(s.inst.vpc.index, s.inst.seen.eni.index, s.inst.id);
      match outcome
      case Fine =>
        if !PlumbReady(s, s.inst.subnet, s.inst.vpc) || s.inst.id !in s.boxes then s
        else s.(links := s.links + {link}, boxes := s.boxes[s.inst.id := s.boxes[s.inst.id].(plumbed := true)],
                inst := HookPlumbed(s.inst.id, s.inst.snap, s.inst.rid, s.inst.seen))
      case Fails(cause) =>
        var t := if stays && s.inst.vpc.index in s.spaces then s.(links := s.links + {link}) else s;
        StartFailed(t, cause)
  }

  function HookRecheckStep(s: Sys): Sys {
    if !s.inst.HookPlumbed? then s
    else if s.inst.id !in s.db.instances then StartFailed(s, "changed")
    else
      var now := s.db.instances[s.inst.id];
      if now.gen != s.inst.seen.gen || now.deleting || now.runtime != Some(s.inst.rid) then StartFailed(s, "changed")
      else s.(inst := HookPassed(s.inst.id, s.inst.snap, s.inst.rid))
  }

  /** Starting a container that already runs succeeds without running the hook again. */
  function StartBoxStep(s: Sys, outcome: Outcome): Sys {
    if !s.inst.Starting? && !s.inst.HookPassed? then s
    else if outcome.Fails? then StartFailed(s, outcome.cause)
    else if s.inst.id !in s.boxes || s.boxes[s.inst.id].rid != s.inst.rid then s
    else if s.inst.Starting? && !s.boxes[s.inst.id].running then s
    else s.(boxes := s.boxes[s.inst.id := s.boxes[s.inst.id].(started := true, running := true)],
            inst := Started(s.inst.id, s.inst.snap, s.inst.rid))
  }

  function InspectStartedStep(s: Sys, outcome: Outcome): Sys {
    if !s.inst.Started? then s
    else if outcome.Fails? then s.(inst := Failing(s.inst.id, s.inst.snap, outcome.cause))
    else if !Alive(s, s.inst.rid) then s.(inst := Failing(s.inst.id, s.inst.snap, "not running"))
    else s.(inst := Observing(s.inst.id, s.inst.snap))
  }

  function ObserveStep(s: Sys): Sys {
    if !s.inst.Observing? then s
    else
      match RecordInstanceTx(s.db, s.inst.id, s.inst.snap, Running, "", true)
      case Committed(db) => s.(db := db, inst := InstIdle)
      case _ => s.(inst := InstIdle)
  }

  // ---- Termination, in reverse order of creation ----

  function DeleteBoxStep(s: Sys, outcome: Outcome, gone: bool): Sys {
    if !s.inst.Removing? then s
    else if s.inst.snap.runtime.None? then s.(inst := BoxGone(s.inst.id, s.inst.snap))
    else
      var rid := s.inst.snap.runtime.value;
      match outcome
      case Fine => s.(boxes := WithoutBox(s.boxes, rid), inst := BoxGone(s.inst.id, s.inst.snap))
      case Fails(cause) =>
        (if gone then s.(boxes := WithoutBox(s.boxes, rid)) else s).(inst := Failing(s.inst.id, s.inst.snap, cause))
  }

  function TermSubnetStep(s: Sys): Sys {
    if !s.inst.BoxGone? then s
    else if s.inst.snap.subnet !in s.db.subnets then s.(inst := Failing(s.inst.id, s.inst.snap, "no subnet"))
    else s.(inst := EniSubnet(s.inst.id, s.inst.snap, s.db.subnets[s.inst.snap.subnet]))
  }

  function TermVpcStep(s: Sys): Sys {
    if !s.inst.EniSubnet? then s
    else if s.inst.subnet.vpc !in s.db.vpcs then s.(inst := Failing(s.inst.id, s.inst.snap, "no VPC"))
    else s.(inst := EniVpc(s.inst.id, s.inst.snap, s.db.vpcs[s.inst.subnet.vpc]))
  }

  function WithoutLink(links: set<Link>, space: Index, port: Index): set<Link> {
    set l | l in links && !(l.space == space && l.port == port)
  }

  function DeleteEniStep(s: Sys, outcome: Outcome, gone: bool): Sys {
    if !s.inst.EniVpc? then s
    else
      var rest := WithoutLink(s.links, s.inst.vpc.index, s.inst.snap.eni.index);
      match outcome
      case Fine => s.(links := rest, inst := Finishing(s.inst.id, s.inst.snap))
      case Fails(cause) => (if gone then s.(links := rest) else s).(inst := Failing(s.inst.id, s.inst.snap, cause))
  }

  function FinishStep(s: Sys): Sys {
    if !s.inst.Finishing? then s
    else
      match FinishTerminationTx(s.db, s.inst.id, s.inst.snap)
      case Committed(db) => s.(db := db, inst := InstIdle)
      case _ => s.(inst := InstIdle)
  }

  function RecordFailureStep(s: Sys): Sys {
    if !s.inst.Failing? then s
    else
      match RecordInstanceTx(s.db, s.inst.id, s.inst.snap, Broken, s.inst.cause, false)
      case Committed(db) => s.(db := db, inst := InstIdle)
      case _ => s.(inst := InstIdle)
  }

  predicate NamesBox(instances: map<Id, Instance>, id: Id) {
    id in instances && instances[id].runtime.Some?
  }

  /** The pass has just made or found a container that its row does not name. */
  predicate Loses(s: Sys) {
    (s.inst.CreatedBox? || s.inst.StaleBox?) && !NamesBox(s.db.instances, s.inst.id)
  }

  /** Cancellation, a fatal error or a restart of the daemon ends the pass where it stands. */
  function InstCancelStep(s: Sys): Sys {
    s.(inst := InstIdle, lost := if Loses(s) then s.lost + {s.inst.id} else s.lost)
  }

  /** The hook is at work for the instance: its container has no process of its own yet. */
  predicate Hooking(inst: InstPc, id: Id) {
    (inst.HookChecked? || inst.HookPlumbed? || inst.HookPassed?) && inst.id == id
  }

  function WithoutLinksOf(links: set<Link>, id: Id): set<Link> {
    set l | l in links && l.owner != id
  }

  /** A container that ends takes its network namespace with it, and so both ends of its link; the
      same goes for what a failed start or a deleted container left behind. */
  function BoxExitsStep(s: Sys, id: Id): Sys {
    if Hooking(s.inst, id) then s
    else
      var t := s.(links := WithoutLinksOf(s.links, id));
      if id !in s.boxes then t else t.(boxes := s.boxes[id := s.boxes[id].(running := false)])
  }

  // ---- All steps ----

  /** Requests reach the store only with a prefix that parsed, and rows only ever hold such prefixes. */
  predicate CidrsParse(db: Db) {
    (forall v :: v in db.vpcs ==> db.vpcs[v].cidr.bits <= 32) &&
      (forall c :: c in db.subnets ==> Valid(db.subnets[c].cidr))
  }

  function ApiStep(s: Sys, a: Action): Sys {
    if !CidrsParse(s.db) then s
    else
      match a
      case CreateVpc(id, name, raw, key, now) =>
        if Valid(raw) then s.(db := CreateVpcTx(s.db, id, name, raw, key, now).0) else s
      case DeleteVpc(id) => s.(db := DeleteVpcTx(s.db, id).0)
      case CreateSubnet(id, vpc, name, raw, zone, key, now) =>
        if Valid(raw) then s.(db := CreateSubnetTx(s.db, id, vpc, name, raw, zone, key, now).0) else s
      case DeleteSubnet(id) => s.(db := DeleteSubnetTx(s.db, id).0)
      case RunInstance(id, eniId, subnet, name, key, now) =>
        s.(db := RunInstanceTx(s.db, id, eniId, subnet, name, key, now).0)
      case Terminate(id) => s.(db := TerminateTx(s.db, id).0)
      case _ => s
  }

  function NetStep(s: Sys, a: Action): Sys {
    match a
    case NetLoad(id) => NetLoadStep(s, id)
    case NetList => NetListStep(s)
    case NetEngine(outcome, left) => NetEngineStep(s, outcome, left)
    case NetRecord => NetRecordStep(s)
    case NetCancel => s.(net := NetIdle)
    case SweepStart => if s.net.NetIdle? then s.(net := Scanning(-1, {})) else s
    case SweepPage => SweepPageStep(s)
    case SweepNames(names) => SweepNamesStep(s, names)
    case SweepDrop(outcome) => SweepDropStep(s, outcome)
    case _ => s
  }

  function LaunchStep(s: Sys, a: Action): Sys {
    match a
    case InstLoad(id) => InstLoadStep(s, id)
    case ReadSubnet => ReadSubnetStep(s)
    case ReadVpc => ReadVpcStep(s)
    case InspectRunning(outcome) => InspectRunningStep(s, outcome)
    case CreateBox(outcome, offered) => CreateBoxStep(s, outcome, offered)
    case RecordBox => RecordBoxStep(s)
    case RetainBox => RetainBoxStep(s)
    case CleanUp(outcome, gone) => CleanUpStep(s, outcome, gone)
    case ReloadFailed => ReloadFailedStep(s)
    case Reload => ReloadStep(s)
    case _ => s
  }

  function StartStep(s: Sys, a: Action): Sys {
    match a
    case HookCheck => HookCheckStep(s)
    case HookPlumb(outcome, stays) => HookPlumbStep(s, outcome, stays)
    case HookRecheck => HookRecheckStep(s)
    case StartBox(outcome) => StartBoxStep(s, outcome)
    case InspectStarted(outcome) => InspectStartedStep(s, outcome)
    case Observe => ObserveStep(s)
    case _ => s
  }

  function StopStep(s: Sys, a: Action): Sys {
    match a
    case DeleteBox(outcome, gone) => DeleteBoxStep(s, outcome, gone)
    case TermSubnet => TermSubnetStep(s)
    case TermVpc => TermVpcStep(s)
    case DeleteEni(outcome, gone) => DeleteEniStep(s, outcome, gone)
    case Finish => FinishStep(s)
    case RecordFailure => RecordFailureStep(s)
    case InstCancel => InstCancelStep(s)
    case BoxExits(id) => BoxExitsStep(s, id)
    case _ => s
  }

  predicate OfApi(a: Action) {
    a.CreateVpc? || a.DeleteVpc? || a.CreateSubnet? || a.DeleteSubnet? || a.RunInstance? || a.Terminate?
  }

  predicate OfNet(a: Action) {
    a.NetLoad? || a.NetList? || a.NetEngine? || a.NetRecord? || a.NetCancel? || a.SweepStart? || a.SweepPage? ||
      a.SweepNames? || a.SweepDrop?
  }

  predicate OfStart(a: Action) {
    a.HookCheck? || a.HookPlumb? || a.HookRecheck? || a.StartBox? || a.InspectStarted? || a.Observe?
  }

  predicate OfStop(a: Action) {
    a.DeleteBox? || a.TermSubnet? || a.TermVpc? || a.DeleteEni? || a.Finish? || a.RecordFailure? || a.InstCancel? ||
      a.BoxExits?
  }

  function Step(s: Sys, a: Action): Sys {
    if OfApi(a) then ApiStep(s, a)
    else if OfNet(a) then NetStep(s, a)
    else if OfStart(a) then StartStep(s, a)
    else if OfStop(a) then StopStep(s, a)
    else LaunchStep(s, a)
  }

  function Exec(s: Sys, run: seq<Action>): Sys
    decreases |run|
  {
    if run == [] then s else Exec(Step(s, run[0]), run[1..])
  }

  /** An empty database whose index history may already be long, and namespaces left over from
      resources of that history. */
  predicate Initial(s: Sys) {
    s.db.vpcs == map[] && s.db.subnets == map[] && s.db.instances == map[] && s.db.events == [] &&
      s.db.replays == map[] &&
    (forall k :: k in s.spaces ==> 1 <= k <= |s.db.issued|) &&
    s.links == {} && s.boxes == map[] && s.net.NetIdle? && s.inst.InstIdle? && s.lost == {}
  }
}
