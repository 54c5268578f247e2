/** Keyed creates over whole runs: while its record has not expired, a key answers with the reply it
    first gave, or refuses, and writes nothing. */
module Idempotency {
  import opened Ipv4
  import opened Rows
  import opened Transactions
  import opened Machine
  import opened Safety
  import opened Runs

  predicate IsCreate(a: Action) {
    a.CreateVpc? || a.CreateSubnet? || a.RunInstance?
  }

  function SlotOf(a: Action): Slot
    requires IsCreate(a)
  {
    Slot(if a.CreateVpc? then CreateVpcOp else if a.CreateSubnet? then CreateSubnetOp else RunInstanceOp, a.key)
  }

  /** The canonical request, if its range parses at all. */
  function PayloadOf(a: Action): Option<Payload>
    requires IsCreate(a) && Callable(a)
  {
    match a
    case CreateVpc(_, name, raw, _, _) =>
      if ParseCidr(raw).Some? then Some(VpcPayload(name, ParseCidr(raw).value)) else None
    case CreateSubnet(_, vpc, name, raw, zone, _, _) =>
      if ParseCidr(raw).Some? then Some(SubnetPayload(name, vpc, ParseCidr(raw).value, zone)) else None
    case RunInstance(_, _, subnet, name, _, _) => Some(InstancePayload(name, subnet))
  }

  predicate Callable(a: Action)
    requires IsCreate(a)
  {
    (a.CreateVpc? || a.CreateSubnet?) ==> Valid(a.raw)
  }

  /** The transaction behind a create request: what it leaves and what it answers. */
  function Call(db: Db, a: Action): (Db, Reply)
    requires IsCreate(a) && Callable(a) && CidrsParse(db)
  {
    match a
    case CreateVpc(id, name, raw, key, now) => CreateVpcTx(db, id, name, raw, key, now)
    case CreateSubnet(id, vpc, name, raw, zone, key, now) => CreateSubnetTx(db, id, vpc, name, raw, zone, key, now)
    case RunInstance(id, eniId, subnet, name, key, now) => RunInstanceTx(db, id, eniId, subnet, name, key, now)
  }

  lemma CallIsStep(s: Sys, a: Action)
    requires IsCreate(a) && Callable(a) && CidrsParse(s.db)
    ensures Step(s, a).db == Call(s.db, a).0
  {}

  // ---- One call against a record ----

  ghost predicate Recorded(db: Db, slot: Slot, payload: Payload, response: Response, expires: int) {
    slot in db.replays && db.replays[slot] == Replay(payload, response, expires)
  }

  /** Before expiry: the same request gets the recorded reply, any other request under the key is
      refused, and neither writes anything. */
  lemma CallBeforeExpiry(db: Db, a: Action, rec: Replay)
    requires IsCreate(a) && Callable(a) && CidrsParse(db) && a.key != ""
    requires SlotOf(a) in db.replays && db.replays[SlotOf(a)] == rec && a.now < rec.expires
    ensures Call(db, a).0 == db
    ensures PayloadOf(a) == Some(rec.payload) ==> Call(db, a).1 == Done(rec.response)
    ensures PayloadOf(a) != Some(rec.payload) ==> Call(db, a).1.Refused?
  {}

  lemma CreateWritesItsSlot(db: Db, a: Action, slot: Slot)
    requires IsCreate(a) && Callable(a) && CidrsParse(db) && slot != SlotOf(a)
    ensures slot in Call(db, a).0.replays <==> slot in db.replays
    ensures slot in db.replays ==> Call(db, a).0.replays[slot] == db.replays[slot]
  {}

  /** A keyed create that changed anything has recorded its own reply, for a day. */
  lemma CreateRecords(db: Db, a: Action)
    requires IsCreate(a) && Callable(a) && CidrsParse(db) && a.key != "" && Call(db, a).0 != db
    ensures PayloadOf(a).Some? && Call(db, a).1.Done?
    ensures Recorded(Call(db, a).0, SlotOf(a), PayloadOf(a).value, Call(db, a).1.response, a.now + DAY)
  {}

  // ---- Every other step leaves the table alone ----

  lemma DeletionsKeepReplays(db: Db, id: Id)
    ensures DeleteVpcTx(db, id).0.replays == db.replays
    ensures DeleteSubnetTx(db, id).0.replays == db.replays
    ensures TerminateTx(db, id).0.replays == db.replays
  {}

  lemma TopologyKeepsReplays(s: Sys)
    ensures NetRecordStep(s).db.replays == s.db.replays
  {
    if s.net.NetDone? && RecordTopologyTx(s.db, s.net.id, s.net.vpc, s.net.kids, s.net.failure).Committed? {
      TopologySparesInstances(s.db, s.net.id, s.net.vpc, s.net.kids, s.net.failure);
    }
  }

  lemma RuntimeKeepsReplays(s: Sys)
    ensures RecordBoxStep(s).db.replays == s.db.replays && RetainBoxStep(s).db.replays == s.db.replays
  {}

  lemma StatusKeepsReplays(s: Sys)
    ensures ObserveStep(s).db.replays == s.db.replays && RecordFailureStep(s).db.replays == s.db.replays
    ensures FinishStep(s).db.replays == s.db.replays
  {}

  lemma ApiKeepsReplays(s: Sys, a: Action)
    requires !IsCreate(a)
    ensures ApiStep(s, a).db.replays == s.db.replays
  {
    if a.DeleteVpc? || a.DeleteSubnet? || a.Terminate? {
      DeletionsKeepReplays(s.db, a.target);
    }
  }

  lemma LaunchKeepsReplays(s: Sys, a: Action)
    ensures LaunchStep(s, a).db.replays == s.db.replays && StartStep(s, a).db.replays == s.db.replays
  {
    LaunchSide(s, a);
    StartSide(s, a);
    RuntimeKeepsReplays(s);
    StatusKeepsReplays(s);
  }

  lemma StopKeepsReplays(s: Sys, a: Action)
    ensures StopStep(s, a).db.replays == s.db.replays
  {
    StopSide(s, a);
    StatusKeepsReplays(s);
  }

  lemma NetKeepsReplays(s: Sys, a: Action)
    ensures NetStep(s, a).db.replays == s.db.replays
  {
    if a.NetRecord? {
      TopologyKeepsReplays(s);
    } else {
      NetStepDb(s, a);
    }
  }

  lemma OthersKeepReplays(s: Sys, a: Action)
    requires !IsCreate(a)
    ensures Step(s, a).db.replays == s.db.replays
  {
    if OfApi(a) {
      ApiKeepsReplays(s, a);
      assert Step(s, a) == ApiStep(s, a);
    } else if OfNet(a) {
      NetKeepsReplays(s, a);
      assert Step(s, a) == NetStep(s, a);
    } else if OfStop(a) {
      StopKeepsReplays(s, a);
      assert Step(s, a) == StopStep(s, a);
    } else {
      LaunchKeepsReplays(s, a);
      assert Step(s, a) == if OfStart(a) then StartStep(s, a) else LaunchStep(s, a);
    }
  }

  // ---- Over a run ----

  /** No request under the slot comes at or past the given time; everything else is unrestricted. */
  ghost predicate Within(run: seq<Action>, slot: Slot, expires: int) {
    forall n :: 0 <= n < |run| && IsCreate(run[n]) && SlotOf(run[n]) == slot ==> run[n].now < expires
  }

  lemma StepKeepsRecord(s: Sys, a: Action, slot: Slot, rec: Replay)
    requires slot.key != "" && slot in s.db.replays && s.db.replays[slot] == rec
    requires IsCreate(a) && SlotOf(a) == slot ==> a.now < rec.expires
    ensures slot in Step(s, a).db.replays && Step(s, a).db.replays[slot] == rec
  {
    if !IsCreate(a) {
      OthersKeepReplays(s, a);
    } else if Callable(a) && CidrsParse(s.db) {
      CallIsStep(s, a);
      if SlotOf(a) == slot {
        CallBeforeExpiry(s.db, a, rec);
      } else {
        CreateWritesItsSlot(s.db, a, slot);
      }
    }
  }

  lemma {:induction false} RunKeepsRecord(s: Sys, run: seq<Action>, slot: Slot, rec: Replay)
    requires slot.key != "" && slot in s.db.replays && s.db.replays[slot] == rec && Within(run, slot, rec.expires)
    ensures slot in Exec(s, run).db.replays && Exec(s, run).db.replays[slot] == rec
    decreases |run|
  {
    if run != [] {
      StepKeepsRecord(s, run[0], slot, rec);
      RunKeepsRecord(Step(s, run[0]), run[1..], slot, rec);
    }
  }

  lemma LaterParses(s: Sys, a: Action, run: seq<Action>)
    requires Reachable(s)
    ensures CidrsParse(Exec(Step(s, a), run).db)
  {
    ReachableInv(s);
    StepKeeps(s, a);
    ExecKeeps(Step(s, a), run);
    PlanParses(Exec(Step(s, a), run).db);
  }

  /** The whole promise: a keyed create answers `first`; then anything happens, including deletion of
      what was created; then, within a day, the key is used again. The same request gets `first`
      back, another one is refused, and the second call writes nothing. */
  lemma KeyedCreateIsIdempotent(s: Sys, create: Action, run: seq<Action>, again: Action)
    requires Reachable(s) && CidrsParse(s.db)
    requires IsCreate(create) && Callable(create) && create.key != "" && Call(s.db, create).0 != s.db
    requires IsCreate(again) && Callable(again) && SlotOf(again) == SlotOf(create)
    requires Within(run, SlotOf(create), create.now + DAY) && again.now < create.now + DAY
    ensures
      var later := Exec(Step(s, create), run).db;
      var first := Call(s.db, create).1;
      && first.Done? && CidrsParse(later)
      && Call(later, again).0 == later
      && (if PayloadOf(again) == PayloadOf(create) then Call(later, again).1 == first
          else Call(later, again).1.Refused?)
  {
    LaterParses(s, create, run);
    CreateRecords(s.db, create);
    CallIsStep(s, create);
    var rec := Replay(PayloadOf(create).value, Call(s.db, create).1.response, create.now + DAY);
    RunKeepsRecord(Step(s, create), run, SlotOf(create), rec);
    CallBeforeExpiry(Exec(Step(s, create), run).db, again, rec);
  }

  /** At or past its expiry a record no longer answers: the call runs as if the key were new. */
  lemma CallAfterExpiry(db: Db, a: Action)
    requires IsCreate(a) && Callable(a) && CidrsParse(db) && a.key != ""
    requires SlotOf(a) in db.replays && db.replays[SlotOf(a)].expires <= a.now
    ensures Call(db, a).1 == Call(db.(replays := db.replays - {SlotOf(a)}), a).1
  {}
}
