# Verified model of the EGB fleet adapter

The adapter sits between RMF, which hands a robot paths, docks and actions, and a
navigation controller reached over Zenoh. This project models the parts of it where the
logic is hard and proves what they promise. A file holds the module it is named after;
`UndockSearch.dfy` also holds the order on paths, `ShortLex`.
Paths in this file are relative to the root of the repository.

## What is modelled

**Undock search** (`TrafficGraph`, `UndockSearch`). The breadth-first search is written as
the loop over a queue and a visited set that it is, with the depth cap as a parameter, and is
proved against a declarative definition: the shortest, and then lexicographically least,
directed walk to a junction. `MAX_DEPTH` is the cap of 5 used by the code. Waypoints at depth
5 are put in the queue and never looked at, so the reachable distances are 1 to 4.

**Navigation sessions** (`NavigationSession`, `NavigationProtocol`, `ProtocolFrame`,
`Schedules`). The critical sections of a session are methods on a mutable class, each proved
equal to a function on its value. The protocol is a transition system over those functions: a
step is one critical section or one atomic load or store, of the RMF executor or of a Zenoh
callback in flight, and a callback in flight has its own session reference, its message and its
copied estimator. The assumptions are

- RMF calls and the update tick are serial: the executor has one control point
  (`egb_fleet_adapter/include/egb_fleet/navigation_session.hpp:28-32`). A completion that
  calls into RMF from a Zenoh thread is taken to be queued there, so it does not start a new
  call in the middle of another.
- Goal ids are fresh when they are issued.
- `acceptedOnly`, chosen per run: the robot publishes no terminal status for a goal whose send
  it rejected. What it publishes about goals that were never issued here is free.
- `atomicCallbacks`, chosen per run: a status decision and the callback it takes out are one
  step, and so are the swap of the session and the invalidation of the old one.

The code enforces neither of the last two. So what needs them is also given its exact
condition, a guard on single steps: "always" is over every state of a run, and a step is
"sometime" taken if it is taken in some state of the run. Results, with what they assume beyond
the first two:

- `EstimatorSafety` (nothing): every call of an RMF estimator is that of the path asked for
  last, with no stop since, and delivers a message received about the goal that path issued; and
  what a session shows to deadlock recovery and to position updates was reported about its goals.
- `FeedbackDelivery` (nothing): and conversely reports arrive. Messages about the goal of the
  session held that are handled and drained end with a call of the RMF estimator of that path,
  with the last of them; and however the threads interleave, a report is never lost while its
  session is held: it is on its way, buffered, delivered, or overtaken by another.
- `RmfCalls` (nothing): what each call comes to when it runs to the end from any reachable state
  at rest: a path is sent or answered, a stop and a cancel withdraw what is live, and a dock or
  an action is sent on the session found, or answered where there is none.
- `ArrivalWiring` (acceptedOnly): a live path has the estimators RMF wanted with it.
- `GoalAccounting`, `ResolveOnce` (nothing): every goal is always held in one place or closed by
  one record, if and only if no status ever decides a session whose goal was already rejected.
  With acceptedOnly none does, so a goal resolves at most once, and every path request is
  active, finished, failed or withdrawn, and only one of these.
- `GoalLife` (acceptedOnly): what each step does to a goal, and the one record that ends it. The
  completion of a dock or an action is called if and only if its goal succeeded or was rejected.
- `HeldPath` (acceptedOnly): the path handle always holds the session of every path that is
  starting or live, outside the swap, if and only if no callback ever clears the session pointer
  while it holds such a session. With atomicCallbacks none does.
- `FailureFlag` (acceptedOnly): the failure flag always tells whether the own goal of the path
  asked for last has failed, outside the calls that clear it, if and only if no other failure is
  raised while the flag is down. Then every replan answers such a failure, none is lost, and the
  update tick makes RMF replan exactly when one is outstanding.
- `ReplanFlag` (both): the only other failures are then those of docks and actions.
- `CurrentPath`, `PathLedger` (both): a path finds its own session, a live path is never
  stranded and is the one asked for last with no stop since, and once a status message decides a live path the next steps make RMF hear of it.
- `GoalCarriers`: at most one session always carries a goal if and only if no goal is ever armed
  while another session carries one (nothing); the session held is always the only one if and
  only if no goal is ever armed on a session let go (both); the first takes the second, and
  the second takes a dock or an action (both).
- `ProtocolWitnesses`: runs on which these conditions fail. Under all assumptions, two sessions
  carry a goal (a feedback callback in flight keeps a stopped session alive, an action arms it,
  and a new path arms another), the aborted goal of an action makes RMF replan a path that has
  not failed, and the aborted goal of an action on a session let go is heard by nobody. Without
  `acceptedOnly` a completion is called twice for one goal. Without `atomicCallbacks` a live path
  is stranded, and a replan answers the failure of a path already replaced.

**Locks** (`Locking`). Every operation of the path handle, the controller and the action slot as
the list of locks it takes and of callbacks it makes; any number of threads interleave, and a
callback may start another operation on the same thread. What a mutex guards is touched by one
thread at a time. RMF is told the outcome of an action
with the mutex of the slot held. So every waiting thread waits in the end for one that can go on
if and only if RMF, being told so, never stores or polls an action before it returns.

**Coordinate transform** (`Plane`, `RotationFit`, `CoordinateTransform`). The estimation loops
over exact reals. A square root and a singular value decomposition are parameters, of which
only their defining equations are assumed. The angle is the unit vector of its cosine and sine.

**Timed and geometric decisions** (`DeadlockRecovery`, `UndockAction`, `ActionLifecycle`,
`LaneContext`, `ApproachHeading`, `Docking`). The timer machine of deadlock recovery, the
undock action and the slot that polls actions, the lane fields of a path, and the searches for
a nearest lane and for an approach lane. Times are whole nanoseconds.

## Where the code differs from what is said about it

- The documentation calls the whole estimate a least-squares fit
  (`egb_fleet_adapter/include/egb_fleet/utils/coordinate_transform.hpp:33-34`). Rotation and
  translation are, at the scale computed; the scale is a ratio of distance sums. Reference
  points (0,0), (1,0), (2,0) measured as (0,0), (0,0), (3,0) give the scale 2 with squared error
  2, and the scale 1.5 has 1.5 (`EstimateNeedNotBeLeast`). `EstimateIsLeastIff` says for which
  points the estimate is the least of all similarities.
- The comment at `egb_fleet_adapter/src/path_handle.cpp:275-278` says a feedback callback holds
  the session mutex across the estimator call. The code copies the estimator and calls it with
  no lock held (`egb_fleet_adapter/src/navigation_controller.cpp:284-296`); the model does too.
- The comment at `egb_fleet_adapter/src/path_handle.cpp:396-398` gives a lock order. The code
  never holds two of these locks, so no order is needed.
- The undock timeout is given as 60 seconds. Elapsed time is cut to whole seconds and compared
  strictly, so it strikes at 61.
- An undocking dock sends a path of two positions that are both the dock itself, because the
  lane chosen leaves the dock and the path goes to that lane's entry.
- The limit of a leg does not depend on the order of the arriving lanes exactly when all
  declared limits are positive or all are equal: a limit that is not positive restarts the fold.
- When the goal of a dock or an action is aborted or cancelled, the completion of the dock or
  action is not called (`ErrandsAreAnsweredIff`). The failure callback taken is the one still
  stored in the session the goal was armed on: if that is a path's, the flag of that path is
  raised and RMF replans a path that has not failed (`ErrandFailureReplans`); a session that a
  stop or a new path has invalidated has none, and nothing is called at all
  (`OrphanFailureIsUnheard`).

## Model

| member | source | states |
|---|---|---|
| UndockSearch.DistinctNeighbors | egb_fleet_adapter/plugins/undock_action/src/undock_action.cpp:150-160 | the scan over lanes collects exactly the waypoints joined to this one in either direction |
| UndockSearch.GetOutgoingLanes | egb_fleet_adapter/plugins/undock_action/src/undock_action.cpp:117-129 | exactly the lanes that leave the waypoint, in increasing order |
| UndockSearch.UnvisitedDestinations | egb_fleet_adapter/plugins/undock_action/src/undock_action.cpp:176-184 | exactly the waypoints one lane away that were not visited |
| UndockSearch.EnqueueDestinations | egb_fleet_adapter/plugins/undock_action/src/undock_action.cpp:186-192 | destinations join the queue in increasing order, each one lane longer, and are marked visited at once |
| UndockSearch.GenerateUndockPath | egb_fleet_adapter/plugins/undock_action/src/undock_action.cpp:131-199 | the search terminates with the shortest, then lexicographically least, walk to a junction, and with the empty path exactly when there is none within the cap |
| UndockSearch.BestIsUnique | egb_fleet_adapter/plugins/undock_action/src/undock_action.cpp:131-199 | the answer is determined by the graph and the start alone |
| UndockSearch.BestIsSimple | egb_fleet_adapter/plugins/undock_action/src/undock_action.cpp:176-192 | no waypoint occurs twice in the path |
| UndockSearch.InteriorIsPlain | egb_fleet_adapter/plugins/undock_action/src/undock_action.cpp:162-171 | no waypoint between the ends of the path is a junction |
| UndockSearch.BestIsNearest | egb_fleet_adapter/plugins/undock_action/src/undock_action.cpp:140-171 | the path is as long as the directed distance of its end, and no junction within the cap is nearer |
| UndockSearch.WayOutExists | egb_fleet_adapter/plugins/undock_action/src/undock_action.cpp:144-198 | a path is found if and only if some junction lies at directed distance 1 to cap - 1 |
| NavigationSession.FirstAbout | egb_fleet_adapter/src/navigation_controller.cpp:333-368 | the first status about the goal is the one that counts, and there is one exactly when the list mentions the goal |
| NavigationSession.TakenIff | egb_fleet_adapter/src/navigation_controller.cpp:333-368 | a message takes the completion out of a session exactly if the first status about its goal is a success, the failure callback exactly if it is an abort or a cancellation, and nothing otherwise |
| NavigationSession.SharedSession.Invalidate | egb_fleet_adapter/include/egb_fleet/navigation_session.hpp:77-86 | the session ends done, without goal, callbacks, reason or feedback; its target index stays |
| NavigationSession.SharedSession.Cancel | egb_fleet_adapter/src/navigation_controller.cpp:115-128 | a session without a goal is left as it is, one with a goal is invalidated |
| NavigationSession.SharedSession.Arm | egb_fleet_adapter/src/navigation_controller.cpp:78-84 | goal, completion and estimator are replaced and the session is live; failure callback and feedback stay |
| NavigationSession.SharedSession.Reject | egb_fleet_adapter/src/navigation_controller.cpp:94-101 | the session is done, and its completion is copied but stays stored |
| NavigationSession.SharedSession.Decide | egb_fleet_adapter/src/navigation_controller.cpp:326-369 | the loop over the statuses takes out the completion or failure callback that the first status about the goal calls for, and invalidates exactly then |
| NavigationSession.SharedSession.Buffer | egb_fleet_adapter/src/path_handle.cpp:345-347 | the newest feedback replaces what was buffered, even in an invalidated session |
| NavigationSession.SharedSession.Drain | egb_fleet_adapter/src/path_handle.cpp:617-624 | feedback is taken and cleared only together with an estimator to give it to |
| EstimatorSafety.EstimatorIsNeverStale | egb_fleet_adapter/src/path_handle.cpp:609-632 | on every run, each estimator call is that of the path asked for last with no stop since, with a message received about the goal that path issued |
| EstimatorSafety.ReportsAreOwn | egb_fleet_adapter/src/navigation_controller.cpp:280-296 | on every run the target index and failure reason a session shows came in a message about a goal issued on it, the target about its own path |
| EstimatorSafety.InvHolds | egb_fleet_adapter/src/path_handle.cpp:337-349 | every step keeps what ties estimators, buffered feedback and goals to the path they belong to |
| EstimatorSafety.CopyKeeps | egb_fleet_adapter/src/navigation_controller.cpp:280-291 | feedback that passes the comparison of goal ids belongs to the path whose estimator was copied with the id |
| FeedbackDelivery.ReportsReachRmf | egb_fleet_adapter/src/path_handle.cpp:609-632 | from every reachable state at rest, messages about the live goal of a session held that wants arrivals, handled to the end and drained, end with one call of the RMF estimator of that path with the last of them, and the session shows its target index and failure reason |
| FeedbackDelivery.ReportsAreNotLost | egb_fleet_adapter/src/path_handle.cpp:337-349 | on every run on which the session stays held with its goal, a report on its way is still on its way, or buffered, or in the executor's hands, or delivered, or overtaken in the buffer by another |
| FeedbackDelivery.WantedIsWired | egb_fleet_adapter/src/path_handle.cpp:368-371 | in every reachable state at rest the session held with a live goal and arrivals wanted is the one the controller finds, and both its estimators are its own |
| ArrivalWiring.ArrivalsAreWired | egb_fleet_adapter/src/path_handle.cpp:314-349 | on every run with an honest robot the session of a live path has both arrival estimators if RMF wanted arrivals with that path, and neither if not |
| RmfCalls.PathIsSent | egb_fleet_adapter/src/path_handle.cpp:299-386 | from every reachable state at rest a new path whose goal is accepted leaves its session live, held and found, with that goal, its callbacks and the estimators wanted; the session before it is invalidated, its live goal withdrawn, and no failure is pending |
| RmfCalls.RejectedPathIsAnswered | egb_fleet_adapter/src/navigation_controller.cpp:86-102 | from every such state a new path whose goal is rejected ends with its completion called once, its session invalidated and none held |
| RmfCalls.StopEnds | egb_fleet_adapter/src/path_handle.cpp:389-414 | from every such state a stop withdraws the live goal of the session found, held or not, lets go of the session held, and leaves no failure pending |
| RmfCalls.CancelEnds | egb_fleet_adapter/src/navigation_controller.cpp:105-129 | from every such state a cancel withdraws the live goal of the session found and changes nothing else |
| RmfCalls.ErrandIsSent | egb_fleet_adapter/src/navigation_controller.cpp:56-86 | from every such state the path of a dock or an action is armed on the session found: goal and completion are replaced, the live goal there is withdrawn, and no arrival estimator is left |
| RmfCalls.ErrandIsBypassed | egb_fleet_adapter/src/navigation_controller.cpp:69-76 | with no session to be found the completion of a dock or an action is called at once and nothing is sent |
| GoalAccounting.VerdictKeeps | egb_fleet_adapter/src/navigation_controller.cpp:337-356 | a decided goal passes from its session to the deciding callback and no record is written, or where the callback taken is null it is closed as unheard; the account is kept |
| GoalAccounting.RejectKeeps | egb_fleet_adapter/src/navigation_controller.cpp:89-102 | a rejected goal passes to the executor, which goes on to call its completion, although that stays in the session; where it is null the goal is closed as unheard; the account is kept |
| GoalAccounting.ArmKeeps | egb_fleet_adapter/src/navigation_controller.cpp:78-84 | arming places the new goal in the session and withdraws the goal that was live there, and no other; the account is kept |
| GoalAccounting.InvHolds | egb_fleet_adapter/src/navigation_controller.cpp:46-380 | every step keeps the account of where each goal is, and no status decides a rejected goal, if the robot publishes none about one |
| ResolveOnce.GoalsAreAccountedForOnce | egb_fleet_adapter/src/navigation_controller.cpp:78-102 | on every run with an honest robot each issued goal is pending in one place or closed by one record and not both, so at most one completion or failure is called for it |
| ResolveOnce.AccountedIff | egb_fleet_adapter/src/navigation_controller.cpp:326-330 | with fresh goal ids alone, each goal is at all times pending in one place or closed by one record and not both, if and only if no status ever decides a session whose goal was already rejected |
| ResolveOnce.RedecidingLoses | egb_fleet_adapter/src/navigation_controller.cpp:94-101 | a status that decides a rejected goal leaves it closed twice, or closed and pending |
| ResolveOnce.ResolutionsAreOwn | egb_fleet_adapter/src/navigation_controller.cpp:337-356 | what is called for a goal is the completion handed over with it, or the failure callback of its own session |
| ResolveOnce.RequestsAreAccountedForOnce | egb_fleet_adapter/src/path_handle.cpp:279-387 | on every run each path request is active, finished, failed or withdrawn, and only one of these, and its callback is called at most once |
| GoalLife.GoalMoves | egb_fleet_adapter/src/navigation_controller.cpp:46-380 | every step leaves each goal where it was, or moves it along one way: from its session to a callback, the executor or its end, and from there to its end, with the record that ends it |
| GoalLife.GoalsEndAsDecided | egb_fleet_adapter/src/navigation_controller.cpp:89-102 | on every run with an honest robot the record that closes a goal is its completion if it succeeded or was rejected, the failure stored in its session if it was aborted or cancelled, unheard where that callback is null, and a withdrawal only if nothing decided it |
| GoalLife.ErrandsAreAnsweredIff | egb_fleet_adapter/src/navigation_controller.cpp:337-356 | the completion of a dock or an action is called for a goal if and only if the goal succeeded or was rejected and its callback is done |
| CurrentPath.InvHolds | egb_fleet_adapter/src/path_handle.cpp:299-364 | with atomic callbacks, every step keeps that only the current session can still clear the current one |
| CurrentPath.PathFindsItself | egb_fleet_adapter/src/path_handle.cpp:367-386 | a path always finds its own session in the controller, so it is always sent |
| HeldPath.PathsAreHeldIff | egb_fleet_adapter/src/path_handle.cpp:322-364 | the session of each path that is starting or live is at all times the one the path handle holds, outside the swap, if and only if no callback ever clears the session pointer while it holds such a session |
| HeldPath.AtomicCallbacksLetNothingGo | egb_fleet_adapter/src/path_handle.cpp:353-361 | with atomic callbacks no callback clears the pointer to the session of a path that is starting or live |
| PathLedger.NoPathIsStranded | egb_fleet_adapter/src/path_handle.cpp:322-364 | on every run on which no callback lets such a session go, and so with atomic callbacks, the session of a live path is the one the path handle holds and the weak pointer locks, outside the swap |
| PathLedger.OnlyLastPathRuns | egb_fleet_adapter/src/path_handle.cpp:299-310 | on every such run a path that is live while RMF is in no call is the one asked for last, with no stop since |
| PathLedger.DecisionsAreHeard | egb_fleet_adapter/src/navigation_controller.cpp:306-372 | on every run with both assumptions, the steps that follow the decision of a live path are those of its callback, and then RMF has had its completion called or its failure raised |
| PathLedger.DecisionCanReachRmf | egb_fleet_adapter/src/navigation_controller.cpp:306-372 | from every reachable state outside the swap and outside a callback, a status message that decides a live path can be received and handled to that end |
| FailureFlag.FlagIsRightIff | egb_fleet_adapter/src/path_handle.cpp:320-332 | the flag is at all times up exactly when the own goal of the path asked for last has failed and nothing answered it, outside the calls that clear it, if and only if no other failure is raised while the flag is down outside such a call |
| FailureFlag.ReplansAreJustified | egb_fleet_adapter/src/robot_state.cpp:489-498 | on every run without such a failure each replan answers a failure of the own goal of the path asked for last, and between calls the flag is up exactly when one is outstanding |
| FailureFlag.FailureIsReplanned | egb_fleet_adapter/src/robot_state.cpp:489-498 | at rest the update tick makes RMF replan exactly when such a failure is outstanding, and lowers the flag |
| ReplanFlag.StraysAreErrands | egb_fleet_adapter/src/path_handle.cpp:320-332 | with atomic callbacks the failures that put the flag wrong are those raised for the goal of a dock or an action |
| ReplanFlag.FlagIsRightIffNoErrandFails | egb_fleet_adapter/src/robot_state.cpp:489-498 | with both assumptions the flag is right at all times if and only if no failure of a dock or an action is raised while the flag is down outside the calls that clear it |
| ReplanFlag.FailsLastCall | egb_fleet_adapter/src/path_handle.cpp:320-332 | with atomic callbacks, a failure callback can be taken out only for the path asked for last, or during a stop |
| GoalCarriers.AtMostOneCarriesIff | egb_fleet_adapter/src/navigation_controller.cpp:56-84 | on every run, without further assumptions, at most one session carries a goal at all times if and only if no goal is ever armed while another session carries one |
| GoalCarriers.OnlyCurrentCarriesIff | egb_fleet_adapter/src/navigation_controller.cpp:56-84 | with both assumptions the current session is at all times the only one with a goal if and only if no goal is ever armed on a session that was let go |
| GoalCarriers.OnlyErrandsArmOrphans | egb_fleet_adapter/src/path_handle.cpp:580-581 | a session that was let go can only be armed for a dock or an action |
| GoalCarriers.BesideOnlyAfterOrphan | egb_fleet_adapter/src/path_handle.cpp:294-310 | with both assumptions a goal is armed beside another only on a run that armed a session let go |
| GoalCarriers.BesideIsAnErrand | egb_fleet_adapter/src/path_handle.cpp:580-581 | a path armed beside another goal finds the goal of a dock or an action there |
| ProtocolWitnesses.TwoSessionsCanCarry | egb_fleet_adapter/src/navigation_controller.cpp:256-263 | a run under all assumptions in which two sessions carry a goal |
| ProtocolWitnesses.PathCanBeStranded | egb_fleet_adapter/src/path_handle.cpp:353-361 | without atomic callbacks, a run that leaves a live path that the controller no longer finds |
| ProtocolWitnesses.ReplanCanBeSpurious | egb_fleet_adapter/src/path_handle.cpp:312-332 | without atomic callbacks, a run in which a replan answers the failure of a path already replaced |
| ProtocolWitnesses.CompletionCanFireTwice | egb_fleet_adapter/src/navigation_controller.cpp:94-101 | if a rejected goal is reported to have succeeded, a run that calls its completion twice |
| ProtocolWitnesses.ErrandFailureReplans | egb_fleet_adapter/src/path_handle.cpp:320-332 | a run under all assumptions in which the goal of an action is aborted, its completion is never called, and RMF replans for a path that was withdrawn and did not fail |
| ProtocolWitnesses.OrphanFailureIsUnheard | egb_fleet_adapter/src/navigation_controller.cpp:337-356 | a run under all assumptions in which the goal of an action is aborted on a session let go: no completion is called and no flag raised |
| Locking.OperationsAreTidy | egb_fleet_adapter/src/path_handle.cpp:299-414 | every way through every operation takes its mutexes one at a time and calls out with none but the one of the action slot, and those that do not use the slot also when started with it held |
| Locking.OneMutexAtMost | egb_fleet_adapter/src/navigation_controller.cpp:256-296 | on every run no thread holds two mutexes besides the one of the action slot, and RMF is called with none but that one held |
| Locking.GuardedIsExclusive | egb_fleet_adapter/src/path_handle.cpp:299-310 | on every run what a mutex guards is touched only by the thread that holds it, so by one at a time |
| Locking.EveryWaitEndsIff | egb_fleet_adapter/src/robot_state.cpp:267-345 | after every run each waiting thread waits in the end for one that can go on, even when callbacks re-enter, if and only if RMF never stored or polled an action from within being told the outcome of one |
| Locking.AskingIsForever | egb_fleet_adapter/src/robot_state.cpp:313-318 | a thread that did so waits for itself in every state from then on |
| Locking.StoringWhileToldBlocks | egb_fleet_adapter/src/robot_state.cpp:313-318 | a run of one thread on which the next action is stored while RMF is told of the last, which blocks the poll |
| RotationFit.TimesTransposed | egb_fleet_adapter/src/utils/coordinate_transform.cpp:141 | the product of one factor with the transpose of the other, entry by entry |
| RotationFit.ExtractRotation | egb_fleet_adapter/src/utils/coordinate_transform.cpp:135-150 | the determinant fix always gives a proper rotation, and no rotation correlates better with the cross sum |
| RotationFit.BestCorrelation | egb_fleet_adapter/src/utils/coordinate_transform.cpp:135-150 | the best rotation correlates with the cross sum by exactly the root of the squared sum of its diagonal plus the squared difference of its other entries |
| CoordinateTransform.EstimateTransformation | egb_fleet_adapter/src/utils/coordinate_transform.cpp:77-170 | bad input is refused, one point gives a translation, coinciding points give no finite scale, and anything else gives a proper rotation and translation that fit least squares at the scale computed |
| CoordinateTransform.CostAboutMeans | egb_fleet_adapter/src/utils/coordinate_transform.cpp:109-133 | the squared error of any similarity depends on the points only through their centroids and the sums about them |
| CoordinateTransform.BestRotationFits | egb_fleet_adapter/src/utils/coordinate_transform.cpp:135-167 | a rotation that correlates best, with the centroids matched, has the least squared error of all rotations and translations at its scale |
| CoordinateTransform.ZeroSpread | egb_fleet_adapter/src/utils/coordinate_transform.cpp:152-164 | the sum the scale is divided by is zero if and only if all points coincide |
| CoordinateTransform.ExactRecovery | egb_fleet_adapter/src/utils/coordinate_transform.cpp:122-169 | robot points that are the image of the reference points under one similarity give back that similarity, collinear points and pairs included |
| CoordinateTransform.EstimateIsLeastIff | egb_fleet_adapter/src/utils/coordinate_transform.cpp:122-169 | the estimate has the least squared error of all similarities if and only if the distance sum of the robot points times the spread of the reference points equals the distance sum of the reference points times the best correlation of the two |
| CoordinateTransform.EstimateNeedNotBeLeast | egb_fleet_adapter/src/utils/coordinate_transform.cpp:152-164 | three points for which the estimate has the squared error 2 and another similarity 1.5 |
| DeadlockRecovery.Recovery.constructor | egb_fleet_adapter/src/robot_state.cpp:529-575 | recovery starts neither holding nor cooling down |
| DeadlockRecovery.Recovery.CheckDeadlockRecovery | egb_fleet_adapter/src/robot_state.cpp:529-575 | one tick of the timer machine: its new timers and whether it interrupts or resumes |
| DeadlockRecovery.Alternation | egb_fleet_adapter/src/robot_state.cpp:533-571 | interrupts and resumes strictly alternate, and holding, the interruption and the hold deadline are present or absent together |
| DeadlockRecovery.InterruptsAreSpaced | egb_fleet_adapter/src/robot_state.cpp:533-571 | consecutive interrupts are at least 33 seconds apart |
| DeadlockRecovery.InterruptRate | egb_fleet_adapter/src/robot_state.cpp:533-571 | k interrupts span at least 33 (k - 1) seconds |
| DeadlockRecovery.InterruptIsJustified | egb_fleet_adapter/src/robot_state.cpp:546-561 | every interrupt ends a span of at least 8 seconds in which every tick saw a live session with a failure |
| DeadlockRecovery.FirstInterrupt | egb_fleet_adapter/src/robot_state.cpp:546-569 | with no hold or cooldown pending a lasting blockage is interrupted between 8 seconds and 8 seconds plus one tick gap after the tick that first saw it, the first interrupt of a run included |
| DeadlockRecovery.HoldIsResumed | egb_fleet_adapter/src/robot_state.cpp:533-544 | a hold is resumed no earlier than 10 seconds and at most one tick gap later |
| DeadlockRecovery.PauseAfterResume | egb_fleet_adapter/src/robot_state.cpp:541-561 | after a resume there is no interrupt for at least 23 seconds |
| DeadlockRecovery.InterruptAfterResume | egb_fleet_adapter/src/robot_state.cpp:541-569 | a blockage that began before 15 seconds had passed since a resume, and lasts, is interrupted between 23 seconds and 23 seconds plus two tick gaps after the resume |
| DeadlockRecovery.NextInterrupt | egb_fleet_adapter/src/robot_state.cpp:533-571 | under continuous blockage the next interrupt comes between 33 seconds and 33 seconds plus three tick gaps later |
| LaneContext.ApproachLimit | egb_fleet_adapter/src/path_handle.cpp:283-290 | the loop over the arriving lanes is the fold of the limits they declare |
| LaneContext.TightestIsLeast | egb_fleet_adapter/src/path_handle.cpp:283-290 | positive limits give the least of them, and none gives zero |
| LaneContext.OrderFreeIff | egb_fleet_adapter/src/path_handle.cpp:283-290 | the limit is independent of the order of the lanes if and only if all limits are positive or all are equal |
| LaneContext.BuildContext | egb_fleet_adapter/src/path_handle.cpp:279-292 | the three lane fields of a session agree in length with the path and hold its lanes, indices and limits |
| LaneContext.IdsAreDistinct | egb_fleet_adapter/src/path_handle.cpp:141 | ids with one prefix are equal exactly if their numbers are, so no two waypoints of a path share one |
| LaneContext.NumeralIsUnique | egb_fleet_adapter/src/path_handle.cpp:141 | a number is written in decimal digits without a leading zero in one way |
| LaneContext.GenerateLanes | egb_fleet_adapter/src/navigation_controller.cpp:155-170 | n waypoints give n - 1 lanes with pairwise distinct ids; lane i is named by its prefix and the decimal numeral of i, joins waypoints i and i + 1, and carries the limit held against its exit, or zero past the end of the limits |
| LaneContext.PathLanes | egb_fleet_adapter/src/navigation_controller.cpp:56-65 | the lanes sent have distinct ids, join consecutive waypoints, and carry the least positive limit of the lanes arriving at their exit |
| LaneContext.GetNavigationLanes | egb_fleet_adapter/src/path_handle.cpp:634-654 | whatever target index is reported nothing is read out of range; a target no lane arrives at borrows the lanes of the next one |
| ApproachHeading.DistanceIsNearest | egb_fleet_adapter/src/path_handle.cpp:55-64 | the clamped projection gives the distance to the nearest of all points of the lane |
| ApproachHeading.ApproachYawFor | egb_fleet_adapter/src/path_handle.cpp:97-134 | the coordinates of the target less those of the entry of the first nearest lane among those that end at the target and are at least a millionth long, and none exactly when there is no such lane |
| ApproachHeading.HeadingIsOfNearestLane | egb_fleet_adapter/src/path_handle.cpp:111-131 | some point of the lane chosen is no farther from the robot than any point of any lane considered |
| Docking.Wrap | egb_fleet_adapter/src/path_handle.cpp:201-205 | the wrap loops terminate within half a turn of zero, having moved by whole turns |
| Docking.FromOpposite | egb_fleet_adapter/src/path_handle.cpp:201-206 | the score is the distance of the angle from the nearest odd multiple of pi, between 0 and pi |
| Docking.FindBestApproachLane | egb_fleet_adapter/src/path_handle.cpp:161-227 | a lane is found exactly when one leaves the waypoint, and it is the first whose unit direction from the dock has the least dot product with that of the docking lane |
| Docking.CosineIsDot | egb_fleet_adapter/src/path_handle.cpp:178-199 | the cosine of the difference of two headings is the dot product of their unit directions, directions without length included |
| Docking.ScoresCompare | egb_fleet_adapter/src/path_handle.cpp:201-209 | the nearer a difference of headings is to half a turn, the smaller its cosine, whatever whole turns it has |
| Docking.Dock | egb_fleet_adapter/src/path_handle.cpp:416-602 | which outcome each dock request has, that the branch without an approach lane is dead, and that both undocking positions are the dock |
| UndockAction.TimeoutIsAt61 | egb_fleet_adapter/plugins/undock_action/src/undock_action.cpp:203-207 | the timeout strikes exactly from 61 seconds on |
| UndockAction.Action.constructor | egb_fleet_adapter/plugins/undock_action/src/undock_action.cpp:30-38 | an action begins planning, with navigation not completed |
| UndockAction.Action.UpdateAction | egb_fleet_adapter/plugins/undock_action/src/undock_action.cpp:40-56 | one poll in every phase: new state, verdict, and the best undock path when navigation starts |
| UndockAction.CanPlanIff | egb_fleet_adapter/plugins/undock_action/src/undock_action.cpp:132-199 | a way out can be planned exactly when all prerequisites are there and a junction lies at a directed distance from 1 to 4 |
| UndockAction.Action.HandlePlanning | egb_fleet_adapter/plugins/undock_action/src/undock_action.cpp:201-372 | before 61 seconds, with all prerequisites and a junction at distance 1 to 4, navigation starts along the best undock path; in every other case planning fails |
| UndockAction.Action.HandleNavigating | egb_fleet_adapter/plugins/undock_action/src/undock_action.cpp:374-397 | a navigation that called back completes the action, at any time; one that has not fails it from 61 seconds on and leaves it in progress before |
| UndockAction.Action.NavigationCompleted | egb_fleet_adapter/plugins/undock_action/src/undock_action.cpp:364-368 | the callback records completion and changes nothing else |
| UndockAction.FinalAfter61 | egb_fleet_adapter/plugins/undock_action/src/undock_action.cpp:201-397 | from 61 seconds on every poll is final and starts no navigation, whatever the surroundings |
| ActionLifecycle.ActionSlot.constructor | egb_fleet_adapter/src/robot_state.cpp:267-273 | the slot starts empty |
| ActionLifecycle.ActionSlot.Store | egb_fleet_adapter/src/robot_state.cpp:267-273 | storing replaces action and execution together |
| ActionLifecycle.ActionSlot.Snapshot | egb_fleet_adapter/src/robot_state.cpp:292-300 | a poll takes the stored action |
| ActionLifecycle.ActionSlot.Resolve | egb_fleet_adapter/src/robot_state.cpp:310-345 | the execution stored at that moment is told, and the slot is emptied |
| ActionLifecycle.NavigationStartsOnce | egb_fleet_adapter/plugins/undock_action/src/undock_action.cpp:363-371 | on every run an action starts navigation at most once, and none while planning |
| ActionLifecycle.AccountedIff | egb_fleet_adapter/src/robot_state.cpp:289-347 | every execution is still stored or was told once, by the final verdict of its own action, if and only if no action was stored while another was there |
| ActionLifecycle.ResolvedAfter61 | egb_fleet_adapter/src/robot_state.cpp:289-347 | without such overlap, a poll at or after 61 seconds resolves the stored execution and empties the slot |
| ActionLifecycle.CompletionIsHonest | egb_fleet_adapter/plugins/undock_action/src/undock_action.cpp:374-382 | an action completes only if it started a navigation and that navigation called back |
| ActionLifecycle.PollDecides | egb_fleet_adapter/plugins/undock_action/src/undock_action.cpp:201-397 | on every run the verdict of a poll follows from the events before it: completed exactly if the navigation was started and called back, failed if it has not by 61 seconds or none can be started, and otherwise in progress, with navigation started by the first poll |
| ActionLifecycle.PollTells | egb_fleet_adapter/src/robot_state.cpp:289-347 | without overlap a whole poll tells the stored execution exactly that verdict if it is final, and otherwise leaves it stored and its navigation started |

## Left out

- The path handle and the controller are modelled on values, as one transition system, and not as classes: their operations interleave between critical sections, which a method body cannot express. The mutable session is a class.
- Zenoh, ROS, RMF and plugin calls, message decoding, TF lookup, parsing and logging: messages arrive decoded, and whether a send is accepted is a free choice.
- Null RMF completions of paths, and a path handle without a control adapter: a completion record says the wrapped completion ran. `Locking` covers the path without an adapter.
- An empty path: it calls its completion at once and touches no session.
- The pointer the failure, completion and action callbacks capture to their own object: objects outlive their callbacks.
- A mutex that its own holder asks for again: the standard leaves open what happens, and `Locking` takes the thread to be blocked for good. A completion of a navigation started by an action is counted as a call that leaves the adapter.
- Rounding, NaN and the narrowing of a lane limit to single precision: arithmetic is over exact reals. Distances are compared squared, the largest double that starts the search for a heading is "none yet", and pi is the exact value of its double.
- Docking.FindBestApproachLane: the arc tangent, cosine and root are functions of which only the defining facts are assumed, with twice the double nearest to pi as the period; a direction without length has the angle zero.
- CoordinateTransform.EstimateTransformation: the case of coinciding reference points is reported as not finite, where the code returns the result of a division by zero; points of fewer than two coordinates are not modelled.
- Round trips of coordinates across several maps, applying the transform, pose conversion and the reverse heading of undock poses.
- `find_closest_waypoint`: the closest waypoint is an input of the undock action.
- Order ids, goal id generation, the sequence numbers and quaternions of waypoint messages.
- Which speed limits a dock or an action sends: `GenerateLanes` is stated for any list of limits, and execution reads those of the session it finds, which can be those of an earlier path.
- Fleet setup, robot discovery, the spawner, launch scripts and the service bridge.
