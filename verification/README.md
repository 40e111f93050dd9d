# The VPC load balancer reconciler, modelled and proved

This project models how the controller keeps a VPC load balancer in step with a Kubernetes service: the update of an
existing load balancer (`UpdateLoadBalancer` and everything it calls), the creation of one as far as a later update
depends on it, and the periodic monitor that removes stale load balancers and raises events.

An update lists the load balancer's listeners and pools, selects the nodes that become pool members, and plans: seven
steps append lines of text such as `DELETE-LISTENER tcp-80-30080 <id>` to a list, an eighth merges several member
updates of one pool into a `REPLACE-POOL-MEMBERS`. The plan is then carried out line by line, each line only after the
load balancer was seen `online/active`, and the first error or timeout ends the update wherever it is.

The central results are about all plans, all runs and all services:

* a complete run ends in exactly the state the service asks for, and every update is one the service accepts when its
  turn comes (`Convergence`); that state is also told in the fields of the Kubernetes service alone (`Services`);
* a run may stop anywhere, and any sequence of cut-short updates may go before: the invariant holds, and the next update
  that runs to its end reaches its own target (`Fixpoint`);
* merging member updates changes neither legality nor the outcome, up to the ids the service issues (`Optimiser`);
* a plan is empty exactly in the desired state, so a second update is a no-op and a creation is a fixed point, although
  each update selects its nodes anew (`Fixpoint`, `Lifecycle`);
* among the ways that leave each pool its protocol and port, a plan is a shortest one exactly if it renames no pool whose
  members already fit (`Shortest`); where no pool fits another port than its own, that holds among all legal ways, and no
  legal way ever saves more than one update for each pool that does (`Reuse`);
* every update that takes effect shortens the next plan, so attempts that never complete succeed in the end as long as
  they select the same nodes (`Progress`); attempts that select their nodes anew are sure to succeed exactly if no member
  quota is exceeded or the service has at most one port (`Retries`, `LostRuns`), and with three pools they can go round
  for ever (`Rounds`);
* plans are short, members of a pool change at most once, and no count rises above where it started or ends (`Bounds`);
* the planner, the optimiser and the executor, written as the loops over lines of text they are, do just this, against a
  service that answers in any order, is in any state, is busy after each update for any number of looks, refuses any
  call and loses any reply (`Planner`, `Merging`, `Executor`, `Controller`); an update succeeds on a reliable service that is
  busy for fewer looks than a wait has rounds, and makes no second call on one that always is for longer.

## How the model is laid out

* `Text`, `PoolNames`, `Codec`: the string operations, the pool names, and the lines a plan is written in.
* `Remote`: the load balancer as a value (listeners, pools, members, the supply of ids), the guard and the effect of each
  SDK operation, and the invariant `WF`. `WF` leaves the ports of members open: a stop between a rename and the
  replacement of the members leaves them on the old node port.
* `Plan`: what each step appends, as functions of a listing; `Desired`, the target state.
* `PoolSteps`, `Convergence`, `Optimiser`, `Fixpoint`, `Bounds`, `HealthMonitors`, `Shortest`, `Reuse`, `Progress`:
  theorems about plans and runs. `FirstSteps`, `Retries`, `Rounds`, `LostRuns`: how plans begin, and runs of attempts that
  select their nodes anew.
* `Nodes`, `Planner`, `Merging`: the selection of nodes, the planner and the optimiser as loops, proved to compute what
  `Plan` and `Optimiser` define. `Services`: the Kubernetes service, the nodes it gets, and what it means to serve it.
* `Sdk`, `Executor`, `Controller`, `Lifecycle`: the service as a class with faults and busy periods, the wait and
  execute loops, the update from end to end, creation and the first update after it.
* `Subnets`: the subnets annotation. `Monitoring`: clean-up and events.

Assumptions, where a theorem has them: every pool name on the load balancer is one the controller generates, with at most
one pool per protocol and port and one listener per port, each listener in front of the pool of its own port; ids and
targets are words without white space; the service's ports are TCP (anything else is rejected first) with distinct
numbers; node addresses are distinct words; nobody else changes the load balancer between the listing and the end of the
update. The service issues ids it has not issued before and never twice.

## What the code does that its surroundings do not say

* `HealthMonitors`: step 4 looks at a health monitor's type and port only, and only under policy Cluster, or Local with a
  health check node port. A changed delay, timeout or retry count stays, and so does anything under another policy. The
  exact conditions are proved.
* `Executor.WaitLoadBalancerReady`: what the last poll finds is not looked at. A wait that is not cut short succeeds
  exactly if the load balancer was ready before or a poll before the last one allowed saw it so; `Executor.ReadyTooLate`
  is a wait that fails although its last poll saw the load balancer ready.
* `Monitoring.ForeignPrefixIff`: the prefix test of the clean-up takes a load balancer of another cluster for one of its own
  exactly if that cluster's id starts with the own id followed by a dash and the own id has at most 57 characters.
  `Monitoring.ForeignIsDeleted` is such a deletion.
* `Monitoring.OwnPrefixIff`: a cluster whose id has more than 57 characters never recognises its own load balancers,
  because the names are cut to 63.
* `LostRuns.RetryingSucceedsIff`: each attempt at an update prefers the members of the pool that is listed first. If a
  positive quota is exceeded and the service has two ports or more, enough attempts can leave two pools with different
  nodes: one is cut after it renamed a pool, and the next lists that pool first, keeps its old nodes and is cut after it
  filled the pool with them. `LostRuns.LostRun` is such a run. It cannot happen if no quota keeps a node out, nor with a
  single port.
* `Rounds.GoesRound`: with three pools of which two agree, no number of attempts is enough: attempts that list the odd one
  first and are cut after their first update leave an odd one again.
* `Shortest.ShortestIff`: step 4 replaces the members of a renamed pool even if they already fit, as they do when a
  node port change is taken back after an update was cut between the rename and the replacement.
* `Reuse.ReuseIsShorter`: a pool is only ever renamed for its own port. If a port number changes under an unchanged node
  port, the plan deletes and creates listener and pool, four updates where a rename of the pool would make it three.
* `Monitoring.SharedNameIff`, `Monitoring.MonitoredIff`: two services whose ids differ only in what is cut off their
  names share a name, and of services that share one only the last one listed is monitored.
* `Monitoring.VpcMonitorLoadBalancers`: with no services left at all, stale load balancers are not cleaned up.
* `Subnets.CreatedIsAccepted`: an annotation that created a load balancer is rejected by its updates exactly if the first
  subnet of the full list that decides one of its items is one of another VPC, whose id the item is;
  `Subnets.ForeignIdIsRejected` is such a listing, and shows that its order matters.

## Model

| member | source | states |
|---|---|---|
| Convergence.PlanConverges | pkg/vpcctl/vpc_lbaas.go:594-712 | From every well-formed state, running the whole plan ends in exactly the desired state: one pool and one listener per service port, generated names, members = nodes on the node port, monitor as inspected, nothing else |
| Convergence.EveryStepIsLegal | pkg/vpcctl/vpc_lbaas.go:584-593 | At every point of a plan (merged in whatever way) the state reached is well-formed and the next update meets its guard: no pool deleted under a listener, no occupied port, no missing pool, no name or member clash, no vanished id |
| Convergence.RulesKept | pkg/vpcctl/vpc_lbaas.go:584-593 | The same told of the load balancer itself, update by update: a pool is deleted when no listener refers to it, a listener created when its pool is there and its port free, a pool when none has its protocol and port; what is deleted, changed or renamed is there |
| Convergence.PlanRuns | pkg/vpcctl/vpc_lbaas.go:594-642 | The final state told from the first: listed pools keep their id and take their final name, monitor and members, the only others being one new pool and listener per port that had none |
| Remote.StepKeepsWF | pkg/vpcctl/vpc_lbaas.go:584-593 | Each admissible operation keeps the invariant: unique endpoints and ports, listeners backed by the pool of their port, distinct members, no id issued twice |
| Remote.SafePrefix | pkg/vpcctl/vpc_lbaas.go:667-711 | Wherever a safe run is cut, the invariant holds, the next update is admissible, and one more update is one application of its effect |
| PoolSteps.MemberDropsRun | pkg/vpcctl/vpc_lbaas.go:234-254 | The member deletions of a pool are all legal and leave exactly the wanted members, by id, and the rest of the load balancer untouched |
| PoolSteps.MemberAddsRun | pkg/vpcctl/vpc_lbaas.go:203-221 | The member creations of a pool are all legal and leave one member per node, and the rest untouched |
| PoolSteps.ChangePoolDone | pkg/vpcctl/vpc_lbaas.go:257-305 | Step 4 on a pool at any stage of a run is legal, renames it, patches its monitor, and moves its members to the new node port when that changed |
| PoolSteps.NoDrops | pkg/vpcctl/vpc_lbaas.go:234-254 | Nothing is deleted if and only if every listed member is a selected node on the right port |
| PoolSteps.NoAdds | pkg/vpcctl/vpc_lbaas.go:203-221 | Nothing is added if and only if every selected node already has its member |
| Optimiser.OptimiseMerges | pkg/vpcctl/vpc_lbaas.go:56-107 | On the plans of this controller the optimised list is the plan of the same job with just the pools of more than one member update merged |
| Optimiser.OptimiserPreservesMeaning | pkg/vpcctl/vpc_lbaas.go:644-645 | The optimised plan is legal step by step, reaches the desired state, and ends in the same state as the raw plan up to fresh ids: old things correspond to themselves, new ones to new ones |
| Optimiser.FilterNothing | pkg/vpcctl/vpc_lbaas.go:68-79 | Without a name to merge the list comes back unchanged |
| Fixpoint.PlanEmptyIffDesired | pkg/vpcctl/vpc_lbaas.go:647-651 | The plan is empty if and only if the state is the desired one |
| Fixpoint.SecondUpdatePlansNothing | pkg/vpcctl/vpc_lbaas.go:594-651 | After a complete update, one for the same service and the same set of nodes plans nothing, in whatever order listings and nodes come |
| Fixpoint.AttemptsKeepWF | pkg/vpcctl/vpc_lbaas.go:667-711 | The invariant holds after every sequence of updates, each for its own service and nodes and each stopped anywhere |
| Fixpoint.SelfStabilisation | pkg/vpcctl/vpc_lbaas.go:296-301 | After any such sequence the first update that runs to its end is legal throughout and reaches its desired state, also from between a rename and the replacement of members |
| Bounds.PlanLength | pkg/vpcctl/vpc_lbaas.go:80-106 | A plan has at most listeners + 2 pools + 2 service ports updates, however many nodes there are |
| Bounds.MembersChangeOnce | pkg/vpcctl/vpc_lbaas.go:80-106 | At most one update of a plan changes the members of a given pool |
| Bounds.CreationsComeLast | pkg/vpcctl/vpc_lbaas.go:588 | In the executed plan no deletion and no update of a pool follows a creation of any kind |
| Bounds.GrowthComesLast | pkg/vpcctl/vpc_lbaas.go:596-642 | Every plan, merged in whatever way, splits between steps 4 and 5 into a part that creates nothing and a part that deletes and updates nothing |
| Bounds.DeletedPoolIsLeftAlone | pkg/vpcctl/vpc_lbaas.go:589 | The deletion of a pool is the only update of the executed plan made to that pool: no member, update or replace action names it |
| Bounds.CountPeaks | pkg/vpcctl/vpc_lbaas.go:588 | At every point of an update the number of pools, and of listeners, is at most the larger of what it was at first and the number of service ports |
| Bounds.MemberPeaks | pkg/vpcctl/vpc_lbaas.go:596-645 | At every point a pool has the members it started with, or its final ones, which are as many as the nodes |
| Bounds.DesiredSizes | pkg/vpcctl/vpc_lbaas.go:594-642 | The desired state has as many pools and as many listeners as the service has ports |
| Shortest.OneAtATime | pkg/vpcctl/vpc_lbaas.go:584-593 | No update of the kind planned here, which leaves each pool its protocol and port, puts more than one thing right: stray listeners and pools, wrong heads and members of pools, ports without pool or listener |
| Shortest.NoShorter | pkg/vpcctl/vpc_lbaas.go:594-712 | Every way to the desired state that leaves each pool its protocol and port, as the plans here do, has at least as many updates as things are wrong; `Reuse.NoWayIsShorter` is for all ways |
| Shortest.PlanHasLength | pkg/vpcctl/vpc_lbaas.go:594-645 | The length of the optimised plan depends on the state only, not on the order of listings: it is the number of wrong things, and one more for each renamed pool whose members already fit |
| Shortest.ShortestIff | pkg/vpcctl/vpc_lbaas.go:257-305 | Among the ways that leave each pool its protocol and port the optimised plan is a shortest one if and only if it renames no pool whose members already fit; it exceeds a shortest one, which exists, by exactly the number of such pools |
| Shortest.RenameTakenBack | pkg/vpcctl/vpc_lbaas.go:296-301 | Such a pool comes about when a node port change is taken back between the rename and the replacement of the members |
| Reuse.OneAtMost | pkg/vpcctl/vpc_lbaas.go:584-593 | No update whatsoever that its guard and the invariant allow makes the number of wrong things, less the pools that can be reused, smaller by more than one |
| Reuse.NoWayIsShorter | pkg/vpcctl/vpc_lbaas.go:594-712 | Every legal way to the desired state, renames for other ports included, has at least as many updates as things are wrong less the number of pools that can be reused: those not right whose members are those of some other port |
| Reuse.ShortestOfAllIff | pkg/vpcctl/vpc_lbaas.go:594-712 | Where no pool can be reused, the optimised plan is a shortest of all legal ways if and only if it renames no pool whose members already fit |
| Reuse.FittingPoolShortens | pkg/vpcctl/vpc_lbaas.go:123-181 | Where a pool of no service port has the members of a port without pool, some legal way is one update shorter than the number of wrong things, below which no plan here gets |
| Reuse.ReuseIsShorter | pkg/vpcctl/vpc_lbaas.go:123-181 | A concrete load balancer whose service changes a port number only: the plan has four updates, none of them a needless replacement, and a legal way has three |
| Progress.NextPlanIsShorter | pkg/vpcctl/vpc_lbaas.go:667-711 | Wherever a plan is cut, the next plan for the same service and set of nodes is shorter by at least the updates that took effect |
| Progress.AttemptsSucceed | pkg/vpcctl/vpc_lbaas.go:667-711 | As many attempts as the first plan is long, each for the same service and nodes and each taking effect but stopped anywhere, reach the desired state |
| Retries.RetriesSucceed | pkg/vpcctl/vpc_lbaas.go:567-576 | The same for attempts that each select their nodes anew, with any pool listed first, if the policy is Local or no positive quota is exceeded |
| Retries.OnePortSucceeds | pkg/vpcctl/vpc_lbaas.go:567-576 | For a service with at most one port such attempts reach the desired state of nodes the service may select, whatever the quota |
| LostRuns.RetryingSucceedsIff | pkg/vpcctl/vpc_config.go:213-261 | For every service with a readable quota, enough attempts that take effect always reach the desired state of nodes it may select if and only if the policy is Local, no positive quota is exceeded or it has at most one port |
| LostRuns.LostRun | pkg/vpcctl/vpc_config.go:232-245 | With an exceeded quota and two ports or more there is a state and such a run, enough attempts of one update each, that ends in no desired state for any nodes |
| Rounds.GoesRound | pkg/vpcctl/vpc_config.go:232-245 | From every load balancer with two pools that hold some nodes and a third that holds others, whatever listeners and other pools it has, such a run exists for every number of attempts |
| Rounds.RingExists | pkg/vpcctl/vpc_config.go:232-245 | There is such a load balancer for every service with three ports or more and an exceeded quota |
| HealthMonitors.MonitorsConvergeIff | pkg/vpcctl/vpc_lbaas.go:287-293 | An update restores type and port of every monitor from every state if and only if the policy is Cluster, or Local with a health check node port (or the service has no ports) |
| HealthMonitors.WholeMonitorIff | pkg/vpcctl/vpc_sdk_gen2.go:287-307 | When all fields of a surviving pool's monitor end up as generated, as an exact condition on what was listed |
| HealthMonitors.NewPoolsAreChecked | pkg/vpcctl/vpc_sdk_gen2.go:264-285 | A pool made by a complete update is checked by HTTP on "/" at the health check node port of a Local service that has one, and else by TCP at its own node port; delay 5, two retries, timeout 2 |
| HealthMonitors.DelayIsKept | pkg/vpcctl/vpc_lbaas.go:287-304 | A concrete well-formed load balancer with a node and a monitor delay of 60: after a complete run of its plan the delay is still there |
| PoolNames.NameRoundTrip | pkg/vpcctl/vpc_sdk_base.go:82-107 | Parsing a generated name gives the lower-cased protocol and both ports exactly for TCP and UDP with non-negative ports; every other generated name is rejected |
| PoolNames.NamesLookLikeThis | pkg/vpcctl/vpc_sdk_base.go:105-107 | The names of two ports: tcp-80-443 and udp-53-531 |
| PoolNames.ShowInjective | pkg/vpcctl/vpc_sdk_base.go:105-107 | Two pools with the same generated name have the same protocol, port and node port |
| PoolNames.MarkerIsNoName | pkg/vpcctl/vpc_lbaas.go:41 | The deletion marker does not parse, and no generated name equals it, whatever the protocol and ports |
| Text.DecimalRoundTrip | pkg/vpcctl/vpc_sdk_base.go:105-107 | Reading the decimal digits of a number gives the number |
| Text.AtoiIff | pkg/vpcctl/vpc_config.go:399-404 | Exactly the texts of 64-bit numbers are read, with zeros before the digits and a sign or without, each as its number; every other text is an error |
| Text.LowerLetters | pkg/vpcctl/vpc_config.go:390 | Lower case changes the 26 capital letters into the small ones and nothing else |
| Text.ContainsIff | pkg/vpcctl/vpc_config.go:237 | A text contains another exactly if it is that with something before it and something after it |
| Text.PaddedContains | pkg/vpcctl/vpc_lbaas.go:246-249 | The substring test for " x " on the space-joined list is list membership |
| Text.FieldsOfJoin | pkg/vpcctl/vpc_lbaas.go:685 | Splitting a line of words gives the words |
| Text.ArgumentsOfLine | pkg/vpcctl/vpc_lbaas.go:685-686 | Cutting the verb off a line and trimming leaves exactly the joined arguments |
| Codec.DecodeLine | pkg/vpcctl/vpc_lbaas.go:683-705 | Taking apart the line of any command of words gives back that command, so no line is unsupported or short of arguments |
| Codec.LinesLookLikeThis | pkg/vpcctl/vpc_lbaas.go:32-41 | The text of each of the eight kinds of lines: its verb and its arguments in order, with single spaces between them |
| Codec.OptimiseSpelt | pkg/vpcctl/vpc_lbaas.go:56-107 | Merging the written plan is writing the merged plan |
| Planner.CheckListenerForExtPortDeletedFromService | pkg/vpcctl/vpc_lbaas.go:124-135 | Appends the deletion exactly for a listener no service port matches |
| Planner.CheckPoolForExtPortDeletedFromService | pkg/vpcctl/vpc_lbaas.go:163-181 | Fails exactly on a name that does not parse; changes at most this pool's name, to the marker; appends the deletion of an unwanted pool |
| Planner.CheckPoolForNodesToDelete | pkg/vpcctl/vpc_lbaas.go:224-254 | Skips marked pools and those whose node port changed; otherwise appends the deletion of exactly the unwanted members, in listed order |
| Planner.CheckPoolForNodesToAdd | pkg/vpcctl/vpc_lbaas.go:184-221 | Skips marked pools and those whose node port changed; otherwise appends a creation for exactly the nodes without member |
| Planner.CheckPoolForServiceChanges | pkg/vpcctl/vpc_lbaas.go:257-305 | Appends rename and replacement on a changed node port, a monitor update on a changed type or port, else nothing |
| Planner.CheckPoolsForExtPortAddedToService | pkg/vpcctl/vpc_lbaas.go:138-160 | Appends a pool creation exactly for a port no listed pool serves |
| Planner.CheckListenersForExtPortAddedToService | pkg/vpcctl/vpc_lbaas.go:110-121 | Appends a listener creation exactly for a port no listed listener serves |
| Planner.CheckPools | pkg/vpcctl/vpc_lbaas.go:611-633 | Once every pool name is the marker or parses, steps 3 to 5 cannot fail |
| Planner.PlanUpdates | pkg/vpcctl/vpc_lbaas.go:594-642 | Planning fails exactly if a listed pool name does not parse; on generated names the lines are those of the plan, and pool ids are untouched |
| Merging.CheckForMultiplePoolMemberUpdates | pkg/vpcctl/vpc_lbaas.go:56-107 | The counting and zeroing loops over lines of text compute the optimised plan |
| Merging.CountMemberUpdates | pkg/vpcctl/vpc_lbaas.go:57-66 | The counters hold, for exactly the names with member updates, how many there are |
| Nodes.FilterNodesByServiceMemberQuota | pkg/vpcctl/vpc_config.go:213-261 | The loops with their substring test and early exits compute the selection; Local services are not limited, a quota that is no number is an error |
| Nodes.QuotaIsRead | pkg/vpcctl/vpc_config.go:389-406 | A number in the annotation, signed or not, is read as that number; disable and max, in any case, and 0 lift the limit |
| Nodes.QuotaIff | pkg/vpcctl/vpc_config.go:389-406 | The quota of any annotation: 50 if it is not set, none for the two words in any case, else the number it is the text of; every other text is an error |
| Services.NodesOfService | pkg/vpcctl/vpc_config.go:213-261 | How many nodes a service gets, in its own fields: all under policy Local, at most 50 if the annotation is not set, else as many as its quota allows; an error exactly if the annotation is no quota |
| Services.ServesIff | pkg/vpcctl/vpc_lbaas.go:594-712 | The desired state in the fields of the Kubernetes service: for each port one pool of its name with one member per node, checked on the health check node port (Local) or the own node port (Cluster), one listener in front of it, and nothing else |
| Nodes.SelectedNodes | pkg/vpcctl/vpc_config.go:213-261 | The selection repeats nothing, is part of the desired nodes, has exactly the quota's length when that is positive and exceeded, and is otherwise all of them |
| Nodes.SelectionKeepsExisting | pkg/vpcctl/vpc_config.go:232-245 | As many existing members are kept as fit the quota, the most possible |
| Nodes.SelectionIsStable | pkg/vpcctl/vpc_lbaas.go:567-576 | Selecting again with the selected nodes as members, from the desired nodes in any order, selects the same nodes |
| Sdk.VpcSdk.CreateLoadBalancerListener | pkg/vpcctl/vpc_sdk_gen2.go:154-176 | An unparsable name is refused before sending; otherwise success means guard and effect held, failure that nothing happened or the reply was lost |
| Sdk.VpcSdk.CreateLoadBalancerPool | pkg/vpcctl/vpc_sdk_gen2.go:179-201 | The same for a new pool with generated monitor and members |
| Sdk.VpcSdk.ReplaceLoadBalancerPoolMembers | pkg/vpcctl/vpc_sdk_gen2.go:608-632 | The same for the replacement of all members |
| Sdk.VpcSdk.UpdateLoadBalancerPool | pkg/vpcctl/vpc_sdk_gen2.go:635-665 | The same for rename and monitor patch, which keep the members |
| Sdk.VpcSdk.ListLoadBalancerPools | pkg/vpcctl/vpc_sdk_gen2.go:384-415 | A listing holds every pool with all its members once, in any order |
| Sdk.StatusOfReady | pkg/vpcctl/vpc_sdk_base.go:284-286 | The status text is "online/active" exactly if the operating status is "online" and the provisioning status "active", that is, for a ready load balancer |
| Executor.WaitLoadBalancerReady | pkg/vpcctl/vpc_lbaas.go:742-767 | At most maxWait/minSleep polls and no mutation. A load balancer it returns has operating status "online" and provisioning status "active". Unless a poll stays unanswered or the clock runs out, it succeeds if and only if the load balancer was ready or a poll before the last allowed one saw it so; on a reliable service exactly if it is busy for few enough looks, on none if for more |
| Executor.LastPollIsIgnored | pkg/vpcctl/vpc_lbaas.go:759-766 | A wait in which the last allowed poll is the one that sees the load balancer ready fails |
| Executor.ReadyTooLate | pkg/vpcctl/vpc_lbaas.go:746-766 | A wait of 15 rounds on a reliable service that stays busy for 14 polls: 15 polls are made, the last one sees the load balancer ready, and the wait fails |
| Executor.AwaitReady | pkg/vpcctl/vpc_lbaas.go:669-681 | Looking and waiting issues nothing and succeeds, on a reliable service, if and only if the load balancer is not busy or for fewer looks than there are rounds |
| Executor.Perform | pkg/vpcctl/vpc_lbaas.go:683-711 | A planned line decodes, its lookups succeed, and the outcome is that of its one operation |
| Executor.SafeIsPrintable | pkg/vpcctl/vpc_lbaas.go:586-593 | Every update of a safe plan consists of words, so the codec applies to it |
| Executor.ExecuteUpdates | pkg/vpcctl/vpc_lbaas.go:667-711 | However the service behaves, a prefix of the plan took effect and that prefix, or one update more that failed, was issued, each right after a look that read "online" and "active"; success means all of it. A reliable service busy for fewer looks than a wait has rounds lets every plan succeed; one busy for longer lets no plan of two updates succeed |
| Controller.CheckRequest | pkg/vpcctl/vpc_lbaas.go:503-556 | A request is rejected as not ready exactly if one of the two status texts differs; it passes only if ready, TCP, of unchanged type and subnets and with nodes; it is rejected for a reason that holds when none looked for earlier does |
| Controller.MakePlan | pkg/vpcctl/vpc_lbaas.go:594-645 | On a listing of a well-formed load balancer steps 1 to 8 give the lines of the optimised plan |
| Controller.SelectNodes | pkg/vpcctl/vpc_lbaas.go:570-579 | The nodes are selected with the first listed pool's targets as existing members; an error only for a quota that is no number |
| Controller.PatienceIs | pkg/vpcctl/vpc_lbaas.go:658-664 | A wait for a network load balancer has 12 rounds, one for any other 15 |
| Controller.PlanAndExecute | pkg/vpcctl/vpc_lbaas.go:594-716 | What took effect is a prefix of the plan for this service and these nodes, and the calls are that prefix or one more; success is all of it and the desired state, and is sure, with nothing issued, if that already held |
| Controller.UpdateLoadBalancer | pkg/vpcctl/vpc_lbaas.go:503-716 | The update from end to end: invariant and readiness discipline in every outcome; no change on a rejection, whose reason holds; otherwise a prefix of the plan for the service and the selected nodes took effect, and the calls are that prefix or one more; success is the whole plan and a load balancer that serves the service in the service's own terms, monitors included; success on a reliable service that is not busy too long, and no second call on one that is |
| Lifecycle.SelectionInDesiredState | pkg/vpcctl/vpc_lbaas.go:570-579 | In the desired state, selecting nodes anew from whichever pool is listed first, the nodes in any order, leaves it the desired state |
| Lifecycle.UpdateTwice | pkg/vpcctl/vpc_lbaas.go:503-716 | After a successful update, a second one with the nodes in any order changes nothing and issues nothing: both together are exactly the complete plan of the first; the second fails only if it finds the load balancer not ready or a listing fails |
| Lifecycle.NodeIDsInOrder | pkg/vpcctl/vpc_config.go:321-330 | The addresses of the nodes that have one, in order |
| Lifecycle.CreateLoadBalancer | pkg/vpcctl/vpc_lbaas.go:308-386 | A request is made exactly for a TCP service with nodes, a readable quota and subnets to be placed in; it carries the public flag as the annotation has it, those subnets, and for each port of the service a named pool with its members and monitor, and a listener |
| Lifecycle.CreateRequest | pkg/vpcctl/vpc_lbaas.go:360-384 | One pool and one listener prototype per port, with generated name, monitor and members |
| Lifecycle.RequestedIff | pkg/vpcctl/vpc_lbaas.go:360-384 | The same in the fields of the Kubernetes service, with all fields of the monitors: HTTP on "/" at the health check node port of a Local service that has one, else TCP at the node port |
| Lifecycle.ServedRealises | pkg/vpcctl/vpc_sdk_gen2.go:131-150 | Every request can be served: there is a load balancer that consists of what was asked for |
| Lifecycle.BuildRequest | pkg/vpcctl/vpc_sdk_gen2.go:100-139 | The builder loop fails exactly on a name that does not parse, and else pairs each listener with its own pool |
| Lifecycle.CreatedIsDesired | pkg/vpcctl/vpc_sdk_gen2.go:100-139 | What the service makes of the request, in whatever ids, is well-formed and desired |
| Lifecycle.CreateIsFixpoint | pkg/vpcctl/vpc_lbaas.go:308-386 | The plan of an update of a created load balancer with unchanged service and nodes is empty, although its existing members now differ from the none there were at creation |
| Lifecycle.UpdateAfterCreation | pkg/vpcctl/vpc_lbaas.go:519-536 | The first update after a creation, from end to end: it changes and issues nothing; if it finds the load balancer ready it passes the type and subnet checks and succeeds unless a listing fails, or is rejected for the subnets exactly if a subnet of another VPC decides an item |
| Subnets.ValidateServiceSubnets | pkg/vpcctl/vpc_config.go:478-517 | Returns each id the items stand for once, in any order, and an error exactly if an item is unknown or of another VPC |
| Subnets.ResolvesToFirst | pkg/vpcctl/vpc_config.go:482-501 | An item stands for the first subnet that has it for id, or in the VPC for name or CIDR; it is an error if that one is of another VPC, and not found if there is none |
| Subnets.ResolvesToAll | pkg/vpcctl/vpc_config.go:478-517 | The ids of an annotation are just those its items stand for, and there are none if one item is an error |
| Subnets.SpacesDropped | pkg/vpcctl/vpc_config.go:420-428 | Spaces are dropped from an annotation wherever they are, and nothing else is |
| Subnets.ValidateServiceSubnetsNotUpdated | pkg/vpcctl/vpc_config.go:520-545 | Accepts exactly if the annotation is unset or stands for just the load balancer's subnets, however items are spelt, ordered or repeated |
| Subnets.SameText | pkg/vpcctl/vpc_config.go:534-541 | Sorted and comma-joined lists are equal texts if and only if they hold the same ids |
| Subnets.GetVpcID | pkg/vpcctl/vpc_sdk_base.go:333-342 | The VPC of the first of the load balancer's subnets that is listed |
| Subnets.VpcOfFirst | pkg/vpcctl/vpc_sdk_base.go:333-342 | The VPC found is that of the first listed subnet with the id of the first of the load balancer's subnets that is listed at all; none if none is |
| Subnets.FilterOne | pkg/vpcctl/vpc_config.go:273-298 | What the filters by VPC name, configured names and zone keep of one subnet; a configured list keeps a subnet if its name occurs anywhere in it |
| Subnets.FilterMore | pkg/vpcctl/vpc_config.go:273-298 | The filters take subnets one by one and keep their order |
| Subnets.ChooseSubnets | pkg/vpcctl/vpc_lbaas.go:318-338 | The subnets of a creation: those of the annotation, else of the zone, else the configured ones; none exactly if there are none configured, the annotation cannot be resolved or the zone has none |
| Subnets.CreatedIsAccepted | pkg/vpcctl/vpc_config.go:478-545 | An annotation that created a load balancer is accepted by its updates if and only if no item is decided, in the full list, by a subnet of another VPC |
| Subnets.DisjointIdsAreAccepted | pkg/vpcctl/vpc_lbaas.go:324-334 | In particular it is always accepted if no subnet has for id the name or CIDR of one |
| Subnets.ForeignIdIsRejected | pkg/vpcctl/vpc_config.go:478-517 | Two concrete listings of the same subnets: creation accepts the annotation with both, the update with one order only |
| Monitoring.Provider.MonitorLoadBalancers | pkg/vpcctl/vpc_provider.go:153-219 | Asks for the deletion of each ready load balancer with the prefix and no LoadBalancer or NodePort service of its name, once, and of nothing else |
| Monitoring.StaleIff | pkg/vpcctl/vpc_provider.go:164-213 | What may be deleted: a load balancer that is online/active, has the prefix kube-<cluster id>- and the name of no listed load balancer or node port service |
| Monitoring.LiveIsKept | pkg/vpcctl/vpc_provider.go:199-213 | The monitor of "prod" that is given the service with id 7a-2b does not ask for the deletion of kube-prod-7a2b |
| Monitoring.DashesDropped | pkg/vpcctl/vpc_config.go:311 | Dashes are dropped from a service id wherever they are, and nothing else is |
| Monitoring.NameIsCut | pkg/vpcctl/vpc_config.go:310-318 | A load balancer name is kube-<cluster id>-<service id without dashes>, cut to 63 characters |
| Monitoring.NameLooksLikeThis | pkg/vpcctl/vpc_config.go:310-318 | The name for service 7a-2b in cluster prod: kube-prod-7a2b |
| Monitoring.LastIsMapped | pkg/vpcctl/vpc_provider.go:166-173 | Of listed load balancers with one name the last one is looked at |
| Monitoring.OwnedMeansMapped | pkg/vpcctl/vpc_provider.go:178-198 | A name is in one of the two service maps exactly if some listed service has that (perhaps cut) name |
| Monitoring.ForeignPrefixIff | pkg/vpcctl/vpc_config.go:310-318 | Another cluster's load balancer, with its name cut to 63 characters, passes the prefix test exactly if its cluster id extends this one's by a dash and this one's has at most 57 characters |
| Monitoring.OwnPrefixIff | pkg/vpcctl/vpc_config.go:310-318 | An own load balancer passes it exactly if the cluster id has at most 57 characters |
| Monitoring.ForeignIsStaleIff | pkg/vpcctl/vpc_provider.go:199-213 | A ready load balancer of another cluster may be deleted exactly if it passes the test and has not the name of a listed service, which an uncut name never has |
| Monitoring.DeleteForeign | pkg/vpcctl/vpc_provider.go:165-213 | A monitor that sees one ready load balancer, with an uncut name, of a cluster whose id extends its own by a dash asks for its deletion, whatever services it is given |
| Monitoring.ForeignIsDeleted | pkg/vpcctl/vpc_provider.go:165-213 | A concrete pair of cluster ids: the monitor of the one deletes the load balancer of the other |
| Monitoring.SharedNameIff | pkg/vpcctl/vpc_config.go:310-318 | When two services with equally long ids get the same load balancer name: with uncut names only for equal ids, otherwise exactly if nothing of an id fits or the parts that fit agree |
| Monitoring.MonitoredIff | pkg/vpcctl/vpc_provider.go:178-198 | A listed service is the one monitored under its name if and only if no later one of its kind has that name |
| Monitoring.Recorder.RecordRound | internal/ibm/ibm_vpc_cloud.go:267-307 | In whatever order the services come, each observation is stored and exactly the events of the round are raised |
| Monitoring.ObservationIs | internal/ibm/ibm_vpc_cloud.go:267-303 | A service is observed as online/active exactly if its load balancer has these two states, and as offline/not_found if it has none |
| Monitoring.FirstEvents | internal/ibm/ibm_vpc_cloud.go:267-307 | A service seen for the first time raises an event exactly if it is online/active, and a normal one; at the next look a warning is raised exactly if it is the same and not online/active |
| Monitoring.ServiceIsMonitoredAlone | internal/ibm/ibm_vpc_cloud.go:267-307 | Over every run a service's stored status is its last observation and its events are those of its own history, whatever else is listed |
| Monitoring.TransitionsCounted | internal/ibm/ibm_vpc_cloud.go:277-296 | Normal events are exactly the entries into online/active, warnings exactly the repeats of an unchanged other status |
| Monitoring.VpcMonitorLoadBalancers | internal/ibm/ibm_vpc_cloud.go:248-308 | Without services or a listing nothing is deleted or recorded; otherwise every stale load balancer and nothing else is deleted and the round is recorded |

## Left out

- HTTP calls, IAM, resource groups, endpoints, and the field-by-field mapping of SDK objects: foreign calls and copying; each operation's effect is kept.
- The Kubernetes client, the command line, configuration files, credentials and secret handlers: plumbing around the same core.
- Log lines, summaries and event texts.
- Dispatch between creation, update, lookup and deletion (`VpcEnsureLoadBalancer`, `VpcGetLoadBalancer`, `FindLoadBalancer`): short branches that add nothing to the theorems.
- The label, zone and edge filters of nodes.
- Subnets.ChooseSubnets: the configured subnet names are matched as substrings, as the code does, and nothing more is claimed of that.
- Pagination: listings are taken as complete; the loops end only if the server lets them.
- Pool names with leading zeros or plus signs, which parse but are never generated: they are outside the invariant. With them a pool can get more than one member update.
- Writers other than this controller between a listing and the end of the update it leads to.
- The service's own validation beyond the guards in `Remote`, its quotas, and the options, algorithm, session persistence and connection limits it takes.
- Controller.UpdateLoadBalancer: takes the internal addresses of the nodes that passed the filters and the answer to the subnet listing as arguments, because nodes and subnets are not the load balancer's.
- Controller.UpdateLoadBalancer: nil arguments are not modelled, because Dafny's types exclude them.
- Executor.WaitLoadBalancerReady: the clock may run out at any round, unless the service is reliable; how long a sleep or a poll takes is not modelled.
- Sdk.VpcSdk.CreateLoadBalancerListener: a lost reply is a failure whose effect may have taken place; that an effect takes place after a later call was issued is not modelled.
- Monitoring.Provider.MonitorLoadBalancers: records the deletions asked for; whether the service carries one out does not matter to the loop.
- Reuse.ShortestOfAllIff: where a pool can be reused the exact length of a shortest way, which depends on how such pools can take each other's places, is not given; `Reuse.NoWayIsShorter` bounds it and `Reuse.FittingPoolShortens` says where it is below the plan's.
- LostRuns.RetryingSucceedsIff: a quota that is no number stops every attempt before it plans, so the claim is for readable ones.
- Text.ToLower and Text.EqualFold: ASCII only, which covers protocols, profile families and quota words.
