# Nephos control plane: a verified model

Nephos keeps the desired state of VPCs, subnets and instances in one transactional store. API requests only
change that desired state. Two reconcilers, and a hook that runs inside container start, make the kernel and
the container runtime follow, and report back through writes guarded by generations. This project models
that protocol, the address arithmetic under it, the firewall compiler and the console stream, and proves
what they promise together.

Check it with `dafny verify dfyconfig.toml`.

## How it is built

- **Store.** `Rows` holds the rows, `Transactions` one function per transaction. `Store` is the same as a
  class whose methods change tables statement by statement; each is proved to compute its function.
- **Machine.** `Machine` is the whole control plane as a deterministic function of a state and an action:
  API transactions, both reconcilers, the hook, the kernel, the runtime. A transaction is one step, because
  the store has one connection; every effect is a step of its own, which the environment may let fail. An
  action that is not enabled changes nothing, so every sequence of actions is a run, and "for every run"
  means every interleaving.
- **Invariants.** `StoreInvariant`, `NetInvariant` and `BoxInvariant` say what holds in every reachable state;
  `StoreProofs`, `TopologyProofs`, `NetProofs`, `BoxProofs`, `BoxSteps` and `Safety` prove that every step keeps
  it. `Runs` states the promises in the terms of the system. `Idempotency`, `NetRound`, `InstRound`,
  `Convergence` and `Leaks` hold the results about whole runs.
- **Engines.** `Ipv4`, `GatewayEngine`, `Queue`, `Names`, `Paging`, `Tokens`, `Keys`.
- **Firewall.** `Firewall` has the desired state, the table it is rendered to and the kernel that runs the table;
  `FirewallPolicy` the policy and the proof that the table means it; `FirewallRender` the rendering loops and
  canonical output, on `Sorting`; `FirewallSort` the same for any correct sort.
- **Console.** `ConsoleWire` has frames, the multiplexed stream and the client; `ConsoleMachine` the session as
  concurrent steps; `ConsoleProofs` its completeness.

## What is assumed of the environment

- Generated ids are checked for freshness by the index table; indexes are never reused. At start, namespaces
  may be left over only from indexes already issued.
- The runtime holds at most one container per instance, Create finds it again, and errs only if it made none.
  A new container gets an id never handed out before.
- Containers, links and namespaces are not removed by anybody else. A container's process may end by itself, and
  its link goes with its network namespace.
- The hook runs only inside Start; starting a running container does not run it again.
- Reconciler store calls fail only by being stale.
- Resource ids and addresses are natural numbers in the order of their fixed-width text; payload hashing is
  equality; a stored reply decodes to what was stored.

## Where a promise ends

- A pass that is cut between Create and the commit that records or retains the id loses track of that one
  container (the state field `lost`, per instance) until a later pass finds it again. Termination skips the
  runtime when no id is recorded, so the container stays for good if the instance is marked after the cut and
  before another pass (`Leaks.CrashThenTerminateLeaks`, `Leaks.LeakIsReachable`), or marked first, while the pass
  is on its way to Create or its commit, and then cut (`Leaks.TerminateThenCrashLeaks`). The exact condition can
  be read off as soon as the instance is marked and no such pass is under way (`Leaks.TerminationLeaksIff`,
  `Leaks.MarkedLeaksIff`). Other instances are not affected.
- Firewall rules of protocol -1 without a range or group speak of TCP, UDP and ICMP only, and an interface that
  is no ENI is not restricted by groups; the policy says so too.
- For TCP or UDP with ports 0 to 0 the renderer emits the bare protocol name, and for a first port above the
  last a descending range. The model reads them as "that protocol" and "no port"; whether nft loads such text
  at all is not decided here.
- Packets are IPv4. The rendered table is of the inet family, and what its address matches let through of IPv6 is
  not covered.

## Model

| member | source | states |
|---|---|---|
| `Runs.NamespaceGoesLast` | internal/reconcile/controller.go:161-207 | in every reachable state, whatever the step: a namespace disappears only if its VPC, where it still has a row, is being deleted and has no subnet left, no link and no instance of it exists, and every container that was ever plumbed, or is not lost, belongs to an instance elsewhere |
| `Runs.GatewayStaysUnderInstances` | internal/reconcile/instance.go:254-280 | no step of any component takes down the gateway of a subnet that has an instance row, nor moves that subnet |
| `Runs.GatewayOutlivesRun` | internal/network/topology/vpc_linux.go:169-218 | over a whole run: a gateway that is up stays up as long as nobody deletes its subnet |
| `Runs.VpcRowGoesAfterNamespace` | internal/store/reconcile.go:61-70 | a VPC row is removed only while being deleted, after its namespace, with no subnet left |
| `Runs.SubnetRowGoesAfterGateway` | internal/store/reconcile.go:78-93 | a subnet row is removed only while being deleted, after its gateway has left the router, with no instance left in it |
| `Runs.NoLeakedRuntime` | internal/reconcile/instance.go:193-229 | in every reachable state a container has a row, which names it except during the pass that is making it; the only exceptions are lost containers, which no row names and which were never plumbed or started |
| `Runs.LostOnlyByCut` | internal/reconcile/instance.go:193-199 | whatever the step, a container becomes lost only by a cut of its own pass between Create and the commit of its id, and only if the row names none |
| `Runs.LeaseReleasedLast` | internal/reconcile/instance.go:254-280 | an instance row with its address lease goes only for a terminating row without a link, and its container outlives it exactly if it was lost before |
| `Leaks.TerminationLeaksIff` | internal/reconcile/instance.go:254-259 | over every run, with failures, cuts and restarts anywhere, from a state where the instance is marked and no pass is on its way to create its container: once the row is gone a container is left if and only if there was one at the start that the row did not name |
| `Leaks.MarkedLeaksIff` | internal/reconcile/instance.go:193-251 | from every state where the instance is marked, a launching pass under way included: the same condition, read off at any later point where that pass is past its Create |
| `Leaks.TermPassLeaksIff` | internal/reconcile/instance.go:254-280 | one undisturbed termination pass does remove the row, and leaks under that same condition |
| `Leaks.CrashThenTerminateLeaks` | internal/reconcile/instance.go:193-199 | from any state about to Create for the first time, a cut right after Create followed by Terminate loses the container |
| `Leaks.TerminateThenCrashLeaks` | internal/reconcile/instance.go:193-199 | the other order, Terminate while the first Create is under way and then a cut right after it, loses the container too, although there was none when the instance was marked |
| `Leaks.LeakIsReachable` | internal/reconcile/instance.go:193-199 | from every clean start, for any fresh ids and range, such a losing run exists |
| `Runs.HonestGenerations` | internal/store/sqlc/queries.sql.go:730-847 | in every reachable state observed never exceeds desired generation, and is below it while a row is being deleted |
| `Runs.RunningMeansStarted` | internal/store/instance_reconcile.go:39-85 | a row that says running is observed, not deleting, names a container that was plumbed by the hook and then started, its gateway is up, and so is its link as long as the container runs |
| `Runs.RowsOnlyMoveForward` | internal/store/sqlc/queries.sql.go:818-847 | over any run rows keep identity, range, index and address, generations grow, deletion intent is never revoked and a runtime id is written once |
| `Runs.GoneForGood` | internal/store/resources.go:43-54 | over any run a removed row never returns and its id is never used again |
| `Runs.CommitSeesWhatEngineSaw` | internal/store/reconcile.go:38-109 | whenever RecordTopology commits, VPC and children in the database, ranges included, equal what the engine was given |
| `Runs.AvailableMeansPlumbed` | internal/store/reconcile.go:71-93 | a subnet recorded available is observed, not deleting, and its gateway is in its VPC namespace now |
| `Runs.SweepSparesEveryVpc` | internal/reconcile/network.go:16-56 | the orphan sweep never removes the namespace of a VPC that has a row, whenever the row was created |
| `Runs.AddressFits` | internal/service/instance.go:87-97 | a leased address is assignable in its subnet and is no network, gateway, reserved or last address of any subnet of its VPC |
| `Runs.AddressesUnique` | internal/service/instance.go:63-125 | no two ENIs of one VPC share an address |
| `Runs.JournalIsFaithful` | internal/store/reconcile.go:60-145 | folding the event log gives exactly the live rows with their current state, generation and reason, and the log only grows |
| `Idempotency.KeyedCreateIsIdempotent` | internal/service/idempotency.go:42-82 | a keyed create answers once; after any run, within a day, the same request gets the same answer, another one is refused, and nothing is written |
| `Idempotency.RunKeepsRecord` | internal/store/sqlc/queries.sql.go:781-791 | no run without a call at or past expiry changes the stored record of a key |
| `Idempotency.CallBeforeExpiry` | internal/service/idempotency.go:42-67 | before expiry the recorded answer or a refusal comes back and the database is unchanged |
| `Idempotency.CreateRecords` | internal/service/idempotency.go:69-82 | a keyed create that changed anything recorded its own answer for a day |
| `Idempotency.CallAfterExpiry` | internal/service/idempotency.go:54-56 | at or past expiry the answer is that of a call without the record |
| `Convergence.RoundSettles` | internal/reconcile/instance.go:136-155 | with nobody else about, one network sweep and one instance sweep leave exactly the live rows, all available or running and observed, in a state the next round can start from |
| `Convergence.RoundPlumbs` | internal/reconcile/network.go:57-63 | after that round every live VPC has its namespace with exactly the gateways of its live subnets |
| `Convergence.SecondRoundIsQuiet` | internal/store/reconcile.go:111-145 | from any such start two rounds in a row: after the first all is settled, and the second changes no row and appends no event |
| `Convergence.RestartSettles` | internal/reconcile/controller.go:122-145 | from every reachable state, whatever either reconciler was doing: after a restart one round settles exactly the rows there were and a second one changes nothing |
| `Convergence.SweepReadsPages` | internal/reconcile/instance.go:139-154 | although passes remove rows, each page the instance sweep reads is the next stretch of the original ids |
| `NetRound.NetSweepSettles` | internal/reconcile/network.go:16-64 | a network sweep settles every live network row, removes every deleted one and leaves no namespace without a row |
| `NetRound.ScanEnds` | internal/reconcile/network.go:22-40 | the paged scan reaches its end for any number of rows |
| `NetRound.DropEnds` | internal/reconcile/network.go:45-56 | the removal loop ends idle having removed exactly the listed names that no row wants |
| `InstRound.LaunchPassLands` | internal/reconcile/instance.go:161-229 | one undisturbed pass over a live instance ends with its row running and observed, no other row changed, and no change at all if it already was |
| `InstRound.TermPassRemoves` | internal/reconcile/instance.go:254-280 | one undisturbed pass over a terminating instance removes its row and the container it names |
| `Safety.ExecKeeps` | internal/reconcile/controller.go:161-207 | every run from a good state keeps the whole invariant and moves the database forward |
| `Safety.StepKeeps` | internal/reconcile/instance.go:161-296 | every single step of any component keeps it |
| `Safety.InitialInv` | internal/store/store.go:73 | a freshly opened database with leftovers of earlier indexes is a good state |
| `Safety.ApiStepShape` | internal/service/network.go:152-196 | an API request only adds rows or marks live ones, touches one side only, and keeps the database invariant |
| `NetProofs.LiveGatewayWanted` | internal/reconcile/controller.go:180-188 | a gateway on the router of a subnet without deletion intent is among those the pass asks for |
| `NetProofs.EngineKeepsGates` | internal/network/topology/vpc_linux.go:37-75 | no engine call, successful or interrupted, takes down the gateway of a subnet without deletion intent |
| `NetProofs.CommitMeansUnchanged` | internal/store/reconcile.go:50-59 | the staleness guard, which compares neither ranges nor states, implies that nothing changed |
| `NetProofs.NetRecordKeeps` | internal/reconcile/controller.go:193-199 | recording a pass keeps the network invariant |
| `NetProofs.NetEngineKeeps` | internal/network/topology/vpc_linux.go:37-89 | an engine call keeps the network invariant |
| `NetProofs.PageNotes` | internal/reconcile/network.go:22-40 | rows behind the scan cursor have no namespace that was not noted |
| `NetProofs.SweepDropsOrphansOnly` | internal/reconcile/network.go:45-56 | a dropped namespace belongs to no VPC row |
| `Safety.EngineKeepsBoxes` | internal/network/topology/vpc_linux.go:37-89 | an engine call leaves every container, link and instance standing |
| `Safety.NothingInside` | internal/reconcile/controller.go:175-179 | no link, instance or subnet is inside a namespace whose VPC is being deleted or has no row |
| `BoxSteps.CreateBoxKeeps` | internal/compute/podman/instance.go:64-113 | Create, finding or making the container, keeps the instance invariant |
| `BoxSteps.RecordBoxKeeps` | internal/reconcile/instance.go:197-199 | recording the runtime id keeps it |
| `BoxSteps.StaleMeansTerminating` | internal/reconcile/instance.go:231-235 | a refused record means the row was marked for termination |
| `BoxSteps.RetainBoxKeeps` | internal/reconcile/instance.go:232-235 | retaining the id on a terminating row keeps it |
| `BoxSteps.HookPlumbKeeps` | internal/hook/server_linux.go:86-89 | plumbing, successful or with a link left behind, keeps it |
| `BoxSteps.StartBoxKeeps` | internal/reconcile/instance.go:210-212 | only a plumbed container is ever started |
| `BoxSteps.ObserveKeeps` | internal/reconcile/instance.go:220-226 | reporting running keeps it |
| `BoxSteps.RecordFailureKeeps` | internal/reconcile/instance.go:282-296 | reporting a failure keeps it |
| `BoxSteps.DeleteBoxKeeps` | internal/reconcile/instance.go:255-259 | deleting the container of a terminating row keeps it |
| `BoxSteps.DeleteEniKeeps` | internal/network/topology/eni_linux.go:230-265 | deleting the link of a terminating row keeps it |
| `BoxSteps.FinishKeeps` | internal/reconcile/instance.go:271-277 | removing the row keeps it |
| `StoreProofs.CreateVpcKeeps` | internal/service/network.go:72-111 | CreateVPC keeps the database invariant (rows, references, address plan, leases, journal) and moves the database forward |
| `StoreProofs.DeleteVpcKeeps` | internal/service/network.go:156-188 | DeleteVPC keeps the database invariant (rows, references, address plan, leases, journal) and moves the database forward |
| `StoreProofs.CreateSubnetKeeps` | internal/service/network.go:225-292 | CreateSubnet keeps the database invariant (rows, references, address plan, leases, journal) and moves the database forward |
| `StoreProofs.DeleteSubnetKeeps` | internal/service/network.go:337-369 | DeleteSubnet keeps the database invariant (rows, references, address plan, leases, journal) and moves the database forward |
| `StoreProofs.RunInstanceKeeps` | internal/service/instance.go:63-125 | Run keeps the database invariant (rows, references, address plan, leases, journal) and moves the database forward |
| `StoreProofs.TerminateKeeps` | internal/service/instance.go:178-204 | TerminateSnapshot keeps the database invariant (rows, references, address plan, leases, journal) and moves the database forward |
| `StoreProofs.RecordRuntimeKeeps` | internal/store/instances.go:121-136 | RecordRuntimeID keeps the database invariant (rows, references, address plan, leases, journal) and moves the database forward |
| `StoreProofs.RetainRuntimeKeeps` | internal/store/instance_reconcile.go:24-36 | RetainTerminatingRuntimeID keeps the database invariant (rows, references, address plan, leases, journal) and moves the database forward |
| `StoreProofs.RecordInstanceKeeps` | internal/store/instance_reconcile.go:39-85 | RecordInstance keeps the database invariant (rows, references, address plan, leases, journal) and moves the database forward |
| `StoreProofs.FinishTerminationKeeps` | internal/store/instance_reconcile.go:88-109 | FinishInstanceTermination keeps the database invariant (rows, references, address plan, leases, journal) and moves the database forward |
| `TopologyProofs.RecordTopologyKeeps` | internal/store/reconcile.go:38-96 | RecordTopology keeps the database invariant (rows, references, address plan, leases, journal) and moves the database forward |
| `TopologyProofs.SettleAllIsClosed` | internal/store/reconcile.go:78-93 | settling the children one by one gives the closed form: listed rows settled or removed, others untouched |
| `TopologyProofs.NoteChildren` | internal/store/reconcile.go:78-93 | the events of the child loop keep the log a journal of the rows |
| `Store.Database.CreateVpc` | internal/service/network.go:49-119 | the statements of the transaction, with rollback, compute the CreateVPC transaction and its reply |
| `Store.Database.DeleteVpc` | internal/service/network.go:152-196 | likewise for DeleteVPC |
| `Store.Database.CreateSubnet` | internal/service/network.go:199-300 | likewise for CreateSubnet, sibling ranges scanned |
| `Store.Database.DeleteSubnet` | internal/service/network.go:333-377 | likewise for DeleteSubnet |
| `Store.Database.RunInstance` | internal/service/instance.go:40-133 | likewise for Run, with two indexes and one address allocated |
| `Store.Database.Terminate` | internal/service/instance.go:174-209 | likewise for TerminateSnapshot |
| `Store.Database.RecordTopology` | internal/store/reconcile.go:38-96 | the guarded statements and the child loop compute the RecordTopology transaction; a stale or rejected call changes nothing |
| `Store.Database.SettleChildren` | internal/store/reconcile.go:78-93 | the child loop settles or removes every child and logs it |
| `Store.Database.RecordVpcStatus` | internal/store/reconcile.go:111-127 | a status is written and logged only if it differs |
| `Store.Database.SettleChild` | internal/store/reconcile.go:80-92 | one child is removed and logged, settled and logged, or left alone |
| `Store.Database.RecordRuntimeId` | internal/store/instances.go:121-136 | the guarded update, or stale and no change |
| `Store.Database.RetainTerminatingRuntimeId` | internal/store/instance_reconcile.go:24-36 | the guarded update, or stale and no change |
| `Store.Database.RecordInstance` | internal/store/instance_reconcile.go:39-85 | the guarded update of instance and ENI rows with its event, or no change |
| `Store.Database.FinishInstanceTermination` | internal/store/instance_reconcile.go:88-109 | both rows removed and logged, or stale and no change |
| `Store.Database.AllocateIndex` | internal/store/resources.go:43-54 | an id is accepted once and gets the next index |
| `Store.Database.EniAddresses` | internal/store/instances.go:92-109 | the loop gathers exactly the leases of the subnet |
| `Store.Database.ListSubnetsByVpc` | internal/store/reconcile.go:18-33 | the children of the VPC, all of them, in id order |
| `Store.Database.PutReplay` | internal/store/resources.go:246-255 | stores the reply under the key, unless the key is empty |
| `Store.SameDesiredChildren` | internal/store/reconcile.go:98-109 | the loop accepts iff the two lists agree position by position |
| `Store.PositionalIffSame` | internal/store/reconcile.go:98-109 | position by position over id-ordered lists is equality of the two sets of rows in the compared fields |
| `Ipv4.OverlapsIffShared` | internal/service/validate.go:69-76 | Overlaps holds iff the two ranges share an address |
| `Ipv4.RangeOkIffInside` | internal/service/validate.go:44-54 | ValidateSubnetRange accepts iff every subnet address is in the VPC |
| `Ipv4.SubnetDisjoint` | internal/service/validate.go:58-67 | the scan accepts iff no sibling shares an address |
| `Ipv4.NextPrivateIp` | internal/service/ipam.go:12-28 | returns the least unused assignable address, and exhaustion iff all are used |
| `Ipv4.AssignableThreeWays` | internal/network/topology/eni_linux.go:26-32 | loop bounds, reservedAddress and the ENI check describe one set |
| `Ipv4.AssignableCount` | internal/service/validate.go:97-107 | there are exactly 2^(32-bits) - 5 assignable addresses |
| `Ipv4.ParseCidr` | internal/service/validate.go:14-23 | accepts /16 to /28, and the parsed range has the same addresses, host bits cleared |
| `GatewayEngine.DesiredGateways` | internal/network/topology/vpc_linux.go:96-121 | accepts exactly plans of canonical, nested, disjoint ranges, and returns their gateways strictly ascending |
| `GatewayEngine.EngineNeverRefuses` | internal/network/topology/vpc_linux.go:96-121 | in every reachable state the children the pass has in hand, however stale, are such a plan |
| `GatewayEngine.DesiredAreGateways` | internal/reconcile/controller.go:181-188 | the addresses of the plan are the gateway set of the live children of the snapshot |
| `GatewayEngine.ActiveSubnets` | internal/reconcile/controller.go:181-187 | the loop leaves out exactly the children with deletion intent |
| `GatewayEngine.Router.ReconcileGateways` | internal/network/topology/vpc_linux.go:169-218 | however it ends, wanted addresses that were there stay as they were and nothing foreign appears; on success exactly the wanted ones are there; it succeeds if every call works and the router is tidy |
| `GatewayEngine.EngineStepIsCall` | internal/network/topology/vpc_linux.go:37-75 | whatever such a call on the snapshot of a pass leaves, finished or not, is an engine step of the machine with that very effect |
| `GatewayEngine.Router.EnsureVpc` | internal/network/topology/vpc_linux.go:37-75 | the whole call, failing at any stage, leaves what an interrupted engine step may leave, an impossible plan changes nothing, and success means exactly the planned gateways |
| `GatewayEngine.Router.RemoveStale` | internal/network/topology/vpc_linux.go:178-207 | the first loop only removes unwanted addresses |
| `GatewayEngine.Router.AddMissing` | internal/network/topology/vpc_linux.go:208-216 | the second loop only adds wanted ones |
| `Queue.Controller.Enqueue` | internal/reconcile/controller.go:59-72 | a hint is kept unless the queue is full, and the worker is woken |
| `Queue.Controller.Drain` | internal/reconcile/controller.go:130-137 | while hints keep arriving, the worker handles every pending hint, and every arriving one after its arrival unless a full queue was waiting, before it sleeps on an empty queue |
| `Queue.Controller.Retry` | internal/reconcile/controller.go:84-101 | the delay is the capped doubling of its attempt number; a full table takes no new entry |
| `Queue.Controller.ReportAll` | internal/reconcile/controller.go:200-205 | after any history of passes what waits depends only on the failures since the last success, and is due by their backoff |
| `Queue.Controller.EnqueueDueRetries` | internal/reconcile/controller.go:109-120 | due entries are queued while there is room and pushed back, none forgotten below the limit |
| `Queue.BackoffSaturates` | internal/reconcile/controller.go:92-98 | the longest delay is reached at the tenth attempt and not before |
| `FirewallPolicy.CompilationPreservesMeaning` | spikes/sp3-routed-vpc/firewall.go:179-340 | the kernel forwards a packet through the rendered table iff source check, boundary ACLs, connection state and groups allow it |
| `FirewallPolicy.NaclChainMeans` | spikes/sp3-routed-vpc/firewall.go:233-259 | an ACL chain passes a packet iff the lowest-numbered applicable entry allows it |
| `FirewallPolicy.GroupChainMeans` | spikes/sp3-routed-vpc/firewall.go:214-228 | a group chain passes a packet iff some rule allows it, for any order of the rules |
| `FirewallPolicy.SpoofMeans` | spikes/sp3-routed-vpc/firewall.go:179-187 | the source check drops exactly packets with a foreign source address |
| `FirewallPolicy.SgMatchMeans` | spikes/sp3-routed-vpc/firewall.go:283-305 | a rendered group match means range, group and protocol, and for an unrestricted rule TCP, UDP or ICMP |
| `FirewallPolicy.NaclMatchMeans` | spikes/sp3-routed-vpc/firewall.go:307-321 | likewise for an ACL match |
| `FirewallPolicy.BoundariesMean` | spikes/sp3-routed-vpc/firewall.go:196-199 | ACLs are asked exactly when a subnet boundary is crossed, in either direction |
| `FirewallPolicy.StatefulMeans` | spikes/sp3-routed-vpc/firewall.go:203-207 | established traffic passes, invalid traffic does not, the rest needs both ENIs' groups |
| `FirewallRender.Render` | spikes/sp3-routed-vpc/firewall.go:99-119 | the loops build the specified table |
| `FirewallRender.RenderSubnetSets` | spikes/sp3-routed-vpc/firewall.go:123-138 | the subnet sets, members sorted |
| `FirewallRender.RenderSgMaps` | spikes/sp3-routed-vpc/firewall.go:140-156 | both verdict maps |
| `FirewallRender.RenderForward` | spikes/sp3-routed-vpc/firewall.go:189-209 | the forward chain |
| `FirewallRender.RenderSgChains` | spikes/sp3-routed-vpc/firewall.go:214-228 | both group chains of every ENI |
| `FirewallRender.RenderNaclChains` | spikes/sp3-routed-vpc/firewall.go:233-259 | both ACL chains of every subnet |
| `FirewallRender.RenderingIsCanonical` | spikes/sp3-routed-vpc/firewall.go:92-119 | two listings of one desired state, with ENIs, subnets, mappings, group rules and ACL entries in any order, render identically when keys are distinct |
| `FirewallRender.GroupOrderNeverMatters` | spikes/sp3-routed-vpc/firewall.go:277-281 | listing anything in another order, group rules with repeated ids included, changes no verdict |
| `FirewallSort.AnySortPreservesMeaning` | spikes/sp3-routed-vpc/firewall.go:277-281 | whatever sorts the renderer uses, as long as each returns some sorted arrangement, ties in any order, the table forwards exactly what the policy allows |
| `FirewallSort.NothingLeftToSort` | spikes/sp3-routed-vpc/firewall.go:243-249 | the table lists everything in the order those sorts gave it |
| `FirewallSort.AnySortRendersAlike` | spikes/sp3-routed-vpc/firewall.go:102-105 | with distinct keys all such sorts give one table |
| `Sorting.OneArrangement` | spikes/sp3-routed-vpc/firewall.go:102-105 | without ties there is only one sorted arrangement, so an unstable sort is deterministic |
| `ConsoleProofs.ExitComesLast` | internal/apiserver/console.go:210-296 | in every run over every stream an exit text comes after every byte of both channels, and only for a stream that ended whole |
| `ConsoleProofs.BadStreamNeverExits` | internal/compute/podman/exec.go:172-200 | a truncated or malformed stream never yields an exit |
| `ConsoleProofs.SuccessMeansEverything` | cmd/nephos/console.go:185-228 | a client result without error means each channel received exactly the bytes produced |
| `ConsoleProofs.StepKeeps` | internal/apiserver/console.go:130-146 | every step of reader, pumps, waiter, bridge and cancellation keeps the session invariant |
| `ConsoleProofs.ExitIsDue` | internal/apiserver/console.go:264-274 | when the bridge is about to write the exit text everything has been sent |
| `ConsoleWire.DemuxStream` | internal/compute/podman/exec.go:172-200 | the loop computes the carried bytes and the kind of failure |
| `ConsoleWire.DemuxInvertsMux` | internal/compute/podman/exec.go:172-200 | demultiplexing multiplexed frames gives both channels back |
| `ConsoleWire.OnlyWholeFramesSucceed` | internal/compute/podman/exec.go:175-198 | no failure means whole frames and a clean end |
| `ConsoleWire.OutputFramesRoundTrip` | internal/tunnel/console/protocol.go:216-230 | an output frame parses to its channel and data, and only frames parse |
| `ConsoleWire.InputFramesRoundTrip` | internal/tunnel/console/protocol.go:205-214 | likewise for input frames |
| `ConsoleWire.ReadRemoteConsole` | cmd/nephos/console.go:185-228 | the loop computes the client's result and output |
| `Paging.LastingRowsShownOnce` | internal/service/instance.go:145-164 | following tokens to the end shows every row that lasts exactly once, for any limits and concurrent changes |
| `Paging.WalkAscends` | internal/service/instance.go:154-162 | rows are shown in strictly increasing order |
| `Paging.WalkShowsRows` | internal/service/instance.go:154-162 | page by page, only rows that were there when that page was read, at most as many as asked for |
| `Paging.ListPageIs` | internal/service/instance.go:154-162 | a page is the next rows after the cursor, and has a token iff more follow |
| `Paging.StreamEvents` | internal/apiserver/events.go:62-91 | wherever the connection breaks, the events emitted are those after the starting cursor up to the cursor, in order, without gap or repetition; the loop waits only after an empty poll, and an empty poll of the whole log means all was emitted |
| `Tokens.TokensRoundTrip` | internal/service/pagination.go:18-40 | a token resumes after exactly the id it was made from |
| `Tokens.TokensAreOfOneKind` | internal/service/pagination.go:30-34 | a token of one kind is refused for every other kind |
| `Tokens.TokensAreChecked` | internal/service/pagination.go:36-56 | a token resumes after an id if and only if the id is well formed and the token spells the one made from it, up to line breaks and the spare bits of its last letter |
| `Tokens.Base64RoundTrip` | internal/service/pagination.go:18-20 | unpadded base64url decodes to what was encoded |
| `Names.OwnedNamesAreCanonical` | internal/reconcile/network.go:66-77 | ownedIndex accepts exactly the canonical names of valid indexes and reads off the index |
| `Names.ValidNamesAreOwned` | internal/network/netns/netns_linux.go:38-55 | validateName accepts exactly the names the sweep owns |
| `Names.NamesDiffer` | internal/network/netns/netns_linux.go:31-36 | two indexes never share a name |

## Left out

- Generated HTTP client and server, authentication, the command line and the terminal: interface plumbing.
- Netlink, mounts, sysctls, policy routes, SQLite and Podman's HTTP: effects that succeed or fail as stated above.
- Name, key and availability-zone validation: abstract text; the zone is part of the request payload.
- Timestamps, MAC addresses, workspaces other than the default one: they decide nothing here.
- Wall-clock timing: waits and tickers are nondeterministic steps; the clock is kept for key expiry and retries.
- The console's input direction and JSON control texts: control messages are taken as decoded.
- The firewall's input chain and NAT chains: carried through rendering, without a packet semantics.
- The text of the rendered table: the output is its structure, section by section, comments included.
- Images: EnsureImage failing is the same step as Create failing.
- A container that vanished from outside: a written runtime id is never replaced, and no convergence is claimed.
- Ipv4.NextPrivateIp: the final address is base plus size minus one; on a canonical base this is the bit-or of the code.
- Convergence.RoundSettles: requires every VPC index to be at most 99999999, beyond which the sweep itself stops with an error.
