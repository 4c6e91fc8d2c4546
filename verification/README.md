# A model of the ElastiCache Redis broker

The broker keeps no state of its own. Every request is a sequence of AWS calls, and what it has to
remember travels in AWS and in the operation data that the platform hands back on each poll. This
project models those requests over an explicit AWS and proves what they keep, alone and interleaved.

## How it is built

- `Aws.dfy` has the three stores (parameter groups, secrets, replication groups) and `Apply`, the effect
  of one AWS call. `Cloud` is the client object; an `Environment` says which calls fail and what others do
  to the stores between two calls.
- `Requests.dfy` has each request as a `Task` stopped before a call: `NextCall` is that call, `Resume` is
  what the code does with the reply, `RunAlone` runs a task undisturbed.
- `Courses.dfy` writes each request out call by call in AWS's terms, for every environment.
- `RedisProvider.dfy` and `Broker.dfy` have the code itself, with its loops, its mutable maps and its
  early returns. The client keeps a list of the calls made and their replies, and each method is proved to make the very
  calls of its task, in order, and to end as it does, in any environment (`CourseOf`).
  `CourseIsRunAlone` ties this to `RunAlone`, and `InterleavedIsACourse` to the interleaved runs.
- `Lifecycle.dfy` lets any number of tasks interleave with failing calls and with AWS itself.
  `ParamGroupOwnership.dfy`, `Orphans.dfy`, `Binding.dfy` and `Deprovisioning.dfy` prove more about these
  runs, `Compensation.dfy` and `Parameters.dfy` what one undisturbed request after the other leaves behind.
  `RunningAloneIsARun` ties an undisturbed request back to the runs.
- `Roles.dfy`, `FailoverTest.dfy`, `FailoverProgress.dfy`, `FailoverOverlap.dfy`, `FailoverDeadline.dfy` and
  `Operations.dfy` have the failover test, its overlapping polls, and its deadline.
- `Naming.dfy` (with `Positional.dfy` and `NamingVector.dfy`), `Token.dfy` and `CredentialUri.dfy` have
  names, passwords and URIs.
- `Snapshots.dfy`, `ServiceDetails.dfy`, `Lineage.dfy`, `Pairs.dfy`, `Config.dfy` and `GoTypes.dfy` have the rest.

`dafny verify dfyconfig.toml` checks everything.

## What is assumed of AWS

- A call that fails, or that AWS refuses, has no effect. Nobody but the broker edits the stores.
- Duplicate names are refused. A deleted secret keeps its name until its recovery window has passed.
- A modification is taken only while the group is `available`. An accepted change of HA or of the primary
  makes it leave `available` until it completes. A settled group has failover `enabled` or `disabled`.
  (This is the trajectory of providers/redis/redis_test.go:1254-1320.)
- A cutover to the node that is already the primary is accepted like any other; only the runs of
  `OverlapHasNoBound` need this.
- AWS checks nothing between the stores: a parameter group can be deleted while a group uses it, which AWS
  says it refuses (vendor/github.com/aws/aws-sdk-go/service/elasticache/api.go:2418-2419), and a group can
  be created without its parameter group. To the broker one more refusal is one more failed call, so what
  is proved of every run holds with these checks too. The run of `CleanUpMayDeleteAnothers` has no group in it.
- One failover test is outstanding at a time, node ids are distinct and not empty, the order of the
  members is constant, and roles change only when the broker asks.
- For the interleaved runs (`Lifecycle`, `ParamGroupOwnership`, `Orphans`, `Binding`, `Deprovisioning`): no two
  instance ids in play share a replication group name.
  `Compensation` does not need this.

## What the code does that one might not expect

- If setting the parameters or creating the secret fails, a provision leaves its parameter group behind
  (`WhenAParamGroupStaysBehind` says exactly when), which blocks the next one and which no window frees. After a
  complete clean-up it is the secret's name that is taken, for seven days. So a failed provision can be
  repeated at once only if its very first call had failed (`RetrySucceedsOnlyIfNothingWasMade`), and after
  the window only if that was so or the clean-up was complete (`RetryAfterTheWindow`). Trying within the
  window leaves a parameter group behind and spoils it (`RetryWithinTheWindowSpoilsTheNext`).
- A deprovisioning poll drops the parameter group without regard to provisions of the same instance. If it
  does so while one is under way, the clean-up of that one may delete the parameter group of the next
  (`CleanUpMayDeleteAnothers`). This is the only way it can happen (`TheirsUnlessDropped`), and
  `WhatTheCleanUpDeletes` says exactly when it does.
- If the call that deletes the secret fails, in a clean-up or in a deprovision, the secret stays live and
  nobody answers for it any more (`OrphanedExactlyByAFailedDelete`, `DeprovisionMayOrphan`). It stays so, and no
  provision or deprovision of the instance succeeds from then on (`OrphanForGood`). In particular such a
  deprovision cannot be repeated (`HalfDoneNeverRepeats`).
- A bind reads the endpoint first and the password second. Between the two the endpoint may move
  (`StaleEndpoint`), or the whole instance may be replaced (`OldHostNewPassword`).
- A failover test can time out with HA off (`TimesOutWithHAOff`). Later polls only report the time-out, so
  HA can come on again by this test exactly if polls or requests of it are still under way that suffice
  (`HAComesOnExactlyIf`). Otherwise it stays off until another update starts a new test.
- With overlapping polls a test already reported succeeded can leave `available` again and report in
  progress (`DoneCanBeLeft`), and there is no bound on the modifications AWS accepts
  (`OverlapHasNoBound`; `ModificationsAreCounted` has the exact number). What a poll calls succeeded is
  failed over all the same (`SuccessMeansFailedOver`).
- `test_failover: false` starts a failover test as well, because only the presence of the parameter is
  checked (broker/broker.go:245).
- `StartFailoverTest` overwrites the error of its describe call and then dereferences the group, so a
  successful describe is a precondition of `Provider.StartFailoverTest`, and of `Broker.Update` where it
  gets that far. `ProgressState` dereferences `AutomaticFailover`, hence `PointersPresent`.
- The comment on `Update` calls it synchronous (broker/broker.go:206-209); the code answers asynchronously.

## Model

| member | source | states |
|---|---|---|
| `FailoverTestRun.SuccessMeansFailedOver` | providers/redis/redis.go:304-383 | For every interleaving of overlapping polls, failed calls, retries and AWS completions: a poll that was in time answers succeeded exactly when the group it describes is available with HA enabled, has one primary, which is not the one at the start, that one is a replica, and the nodes are the same; and the primary at the start is the one the operation data records |
| `FailoverTestRun.RequestsAreOrdered` | providers/redis/redis.go:339-370 | Every cutover request of a run, however stale, names one target, a replica other than the recorded primary; HA is asked for only after a cutover has completed |
| `FailoverTestRun.InvariantKept` | providers/redis/redis.go:326-382 | Each step of the protocol, by the broker or by AWS, keeps the phase, roles and requests under way consistent |
| `FailoverTestRun.PollDecision` | providers/redis/redis.go:326-382 | A poll cuts over exactly in the phase disabled on the old primary, enables HA exactly in the phase disabled on the new one, and reports available exactly when done |
| `FailoverTestRun.PhaseGoesBackOnlyFromDone` | providers/redis/redis.go:326-382 | An event takes the test back a phase if and only if it is a late request to enable HA, taken when the group is done and available; then it goes back to enabling. No event takes it forward more than one |
| `FailoverOverlap.DoneCanBeLeft` | providers/redis/redis.go:357-374 | Every available group has a run in which a poll answers succeeded and, after a late request to enable HA, the next poll answers in progress |
| `FailoverTestRun.TimedOutForGood` | broker/broker.go:394-411 | After one poll has timed out every later one does and changes nothing, and AWS takes at most one more modification for each poll that was past its deadline check by then |
| `FailoverTestRun.NobodyRepairsAfterTheDeadline` | broker/broker.go:394-411 | Once timed out with no poll past its deadline check and nothing pending, this test changes neither HA nor roles any more |
| `FailoverDeadline.HAComesOnExactlyIf` | broker/broker.go:394-411 | In every run that has timed out there is a way on to HA enabled if and only if HA is on or coming on, a request for it is under way, or a poll past its deadline check and the polls and requests under way together suffice for the modifications that are due |
| `FailoverDeadline.TimesOutWithHAOff` | broker/broker.go:394-403 | Every available group has a run that times out with HA off, nothing under way, and no way to get it on again |
| `FailoverProgress.ThreePollsAndThreeModifications` | providers/redis/redis.go:326-382 | With one poll at a time, some of which fail to describe the group, and k failed modify calls, exactly the polls from the (k+3)th that sees the group available succeed, and three modifications are accepted in all |
| `FailoverProgress.PhaseOnlyRises` | providers/redis/redis.go:326-382 | With one poll at a time the six phases never go back, not even from done |
| `FailoverOverlap.ModificationsAreCounted` | providers/redis/redis.go:326-382 | In every run AWS has accepted exactly what the phase takes plus the stale requests, those taken outside the phase they were decided in; a test that is done has taken three modifications if and only if none was stale |
| `FailoverOverlap.OverlapHasNoBound` | providers/redis/redis.go:339-356 | For each n every available group has a run that ends in success after 3 + n modifications, because n + 1 polls decided on the same cutover |
| `Roles.ScansSettleOnTheLast` | providers/redis/redis.go:58-77 | A scan settles on the last node in the role, node group by node group in listed order, and on nothing where there is none |
| `Roles.BeforeCutover` | providers/redis/redis.go:58-77 | On sound roles the scan finds the one primary and a different node that is a replica |
| `Roles.AfterCutover` | providers/redis/redis.go:339-356 | The cutover keeps the nodes and their number of primaries, makes the target the primary and the old primary a replica, and doing it twice is doing it once |
| `Operations.DeadlineBounds` | broker/broker.go:394-403 | No poll up to 45 minutes less a second after the start is late, every poll past 45 minutes is |
| `Operations.Deadline` | broker/broker.go:267-274 | The deadline is the last whole second within 45 minutes of the start |
| `Operations.ProviderStatesMapping` | broker/broker.go:436-452 | Only available maps to succeeded, only create-failed to failed, and exactly the states outside the list are unknown |
| `Lifecycle.OwnershipKept` | providers/redis/redis.go:157-242 | Whatever event comes next, each live secret has at most one owner, its group while in service or one request; a group in service has its live secret, and a request that created the secret holds its value |
| `Orphans.OnlyAFailedDeleteLoses` | providers/redis/redis.go:206-242 | An event leaves a live secret without an owner if and only if it is the failing call that was to delete it, in a clean-up or in a deprovision |
| `Orphans.OrphanedExactlyByAFailedDelete` | providers/redis/redis.go:206-242 | In every run a live secret has no owner if and only if such a call has failed before; any other live secret has exactly one owner |
| `Orphans.OrphanForGood` | providers/redis/redis.go:157-242 | A live secret without an owner stays one in every run, and no step of a provision or deprovision of its instance ends in success from then on |
| `Orphans.DeprovisionMayOrphan` | providers/redis/redis.go:231-239 | From empty stores every instance has a run in which a deprovision is taken for its group, fails at the secret, and leaves it without an owner |
| `Lifecycle.SecretsMatchGroups` | providers/redis/redis.go:157-242 | In every reachable state each group not being deleted has a live secret at its instance's path whose value is the auth token it was created with |
| `Binding.BindGetsTheToken` | providers/redis/redis.go:457-463 | A bind that reads the secret while the group is in service returns that group's token |
| `Binding.EveryBindReturnsOnePassword` | providers/redis/redis.go:457-463 | From any reachable state, while a group stays in service, however long and whatever runs beside it, a bind at the beginning and one at the end return one password |
| `Binding.BindReturnsTheGroup` | providers/redis/redis.go:430-480 | A bind returns the endpoint it described and the password of the group in service when it reads the secret; both belong to that group if and only if its endpoint is still the one described |
| `Binding.StaleEndpoint` | providers/redis/redis.go:433-457 | A run in which the endpoint moves after the describe, and the bind returns the old one |
| `Binding.OldHostNewPassword` | providers/redis/redis.go:433-457 | A run in which the instance is deprovisioned and provisioned again in between, and the bind returns the old host with the new password |
| `Lifecycle.OnePasswordForLife` | providers/redis/redis.go:173-218 | As long as a group stays in service, its token and its tags stay the same |
| `Lifecycle.EntersByProvision` | providers/redis/redis.go:206-218 | A group enters service only through a provision of its own instance, with that request's token and tags |
| `Lifecycle.CleanUpDeletesItsOwnSecret` | providers/redis/redis.go:206-217 | Whatever else runs, the clean-up of a provision deletes the secret this same call created, and no group uses it |
| `ParamGroupOwnership.TheirsUnlessDropped` | providers/redis/redis.go:131-218 | In every run, each provision of an instance keeps the parameter group it created until it is done with it, if and only if no deprovisioning poll of that instance drops it while a provision is under way |
| `ParamGroupOwnership.OnlyADropTakesIt` | providers/redis/redis.go:131-218 | The same for one step: no other event takes a parameter group from the provision that created it |
| `ParamGroupOwnership.CleanUpDeletesItsOwnParamGroup` | providers/redis/redis.go:206-211 | Without such a drop, whatever else runs, the clean-up of a provision deletes the parameter group this same call created, and no other provision is at work on it |
| `ParamGroupOwnership.WhatTheCleanUpDeletes` | providers/redis/redis.go:206-211 | In every run the clean-up deletes the parameter group this same call created if and only if nobody has deleted that before, and another call's if and only if somebody has, another provision has then created a new one, and that is there |
| `ParamGroupOwnership.CleanUpMayDeleteAnothers` | broker/broker.go:413-421 | With such a drop, from empty stores and for any instance, the clean-up of a failed provision deletes the parameter group a second one has just created, which then fails too |
| `ParamGroupOwnership.ProvisionStepsTouchOnlyTheirOwn` | providers/redis/redis.go:157-218 | Without such a drop, between any other requests, no step of a provision changes a group, or a parameter group or secret that this same call did not create, and it adds only its own |
| `Lifecycle.BrokerMayStart` | providers/redis/redis.go:559-561 | The broker's own names meet the assumptions as soon as the group names of the ids in play differ: token paths always do |
| `Courses.ProvisionCourse` | providers/redis/redis.go:157-218 | The calls of a provision, written out with their arguments: each of the first three is followed by the next exactly if it is accepted, the clean-up follows exactly if the fourth is not, and it succeeds exactly if that one is |
| `Courses.DeprovisionCourse` | providers/redis/redis.go:221-242 | The group first, the secret with thirty days exactly if that is accepted, and success exactly if both are |
| `Courses.WindowCourse` | broker/broker.go:277-306 | The window first, the policy exactly if there is one and the window is accepted, and success exactly if the last call is |
| `Courses.PolicyCourse` | providers/redis/redis.go:111-129 | One call with the one entry for the memory policy |
| `Courses.StartCourse` | providers/redis/redis.go:666-694 | With both roles HA is switched off and the primary seen is the one recorded; without, nothing but the describe |
| `Courses.AdvancingCourse` | providers/redis/redis.go:326-376 | A failover poll of an available group with HA off and both roles asks for the cutover to the replica exactly if the primary is the recorded one, and for HA otherwise |
| `Courses.ReportingCourse` | providers/redis/redis.go:381-382 | Every other poll of a group with a status makes one call and reports that status |
| `Courses.FailingCourse` | providers/redis/redis.go:312-333 | A poll without an answer, without a status, or without roles where they matter fails after one call |
| `Courses.GoneCourse` | broker/broker.go:413-421 | Where there is no group, a deprovisioning poll drops the parameter group, absent or not, any other poll does nothing, and both say that the instance is gone |
| `Courses.BindCourse` | providers/redis/redis.go:430-480 | A bind goes on to the secret exactly if there is a configuration endpoint or a node group, and returns the address and port of the former, or else of the first node group's primary endpoint |
| `Courses.BrokerCallsNameTheirInstance` | providers/redis/redis.go:559-561 | Every call of every request is about the group name generated from its own instance id, or about the path made of the prefix, that id and its fixed ends |
| `Lifecycle.RunningAloneIsARun` | providers/redis/redis.go:157-242 | A request running undisturbed is one of the interleaved runs |
| `Lifecycle.InterleavedIsACourse` | providers/redis/redis.go:157-242 | A request that ends in an interleaved run makes the calls and has the end of its course in some environment, and the code follows that course in every environment |
| `Deprovisioning.PollsKeepToTheirAction` | broker/broker.go:405-421 | Over any run no poll but a deprovisioning one touches a parameter group, none but a failover poll a group, and none a secret |
| `Deprovisioning.DeprovisionClears` | providers/redis/redis.go:221-242 | When Deprovision succeeds the secret is not live and the group is absent or being deleted |
| `Deprovisioning.GoneMeansGone` | broker/broker.go:413-421 | After a successful deprovision and without a new provision, a later deprovisioning poll that answers that the instance does not exist means that group and parameter group are absent and the secret is not live |
| `Deprovisioning.AbsentIsAnswered` | broker/broker.go:413-421 | Where group and parameter group are absent and no call fails, a deprovisioning poll answers that the instance does not exist |
| `Deprovisioning.RepeatSucceedsOnlyIfNothingWasTaken` | providers/redis/redis.go:221-242 | After a failed deprovision a second one succeeds if and only if the first call of the failed one had failed and nothing else stands in the way |
| `Deprovisioning.HalfDoneNeverRepeats` | providers/redis/redis.go:231-239 | Once the deletion of the group is taken and that of the secret has failed, every repeat fails, while the group is being deleted and after it has gone |
| `Compensation.ProvisionTouchesOnlyItsOwn` | providers/redis/redis.go:157-218 | Running undisturbed, on every path and whichever calls fail, a provision changes nothing that existed before, even under a colliding name, and adds nothing but its own resources; it succeeds exactly when every call can |
| `Compensation.UndoLeaves` | providers/redis/redis.go:206-217 | When creating the group fails, what remains: the parameter group exactly if its clean-up call failed, the secret live if its own did and scheduled for seven days otherwise |
| `Compensation.EarlyFailureLeaves` | providers/redis/redis.go:160-171 | Failures before the group is created clean nothing up; what they leave is stated exactly |
| `Compensation.WhenAParamGroupStaysBehind` | providers/redis/redis.go:157-218 | A failed provision leaves no parameter group of its own behind if and only if it never created one, or it failed at the group and the clean-up call succeeded |
| `Compensation.WhenASecretStaysLive` | providers/redis/redis.go:157-218 | A failed provision leaves a live secret of its own if and only if it failed at the group and the clean-up call for the secret failed |
| `Compensation.RetrySucceedsOnlyIfNothingWasMade` | providers/redis/redis.go:157-218 | After a failed provision another one of the same instance succeeds if and only if the very first call of the failed one had failed and nothing else stands in the way |
| `Compensation.RetryAfterTheWindow` | providers/redis/redis.go:157-218 | Once the recovery window has passed, it succeeds if and only if that call had failed or the clean-up was complete, and nothing else stands in the way |
| `Compensation.RetryWithinTheWindowSpoilsTheNext` | providers/redis/redis.go:160-171 | After a complete clean-up, a second provision within the window leaves its parameter group behind, and a third fails even after the window |
| `Parameters.UpdateEffect` | broker/broker.go:277-306 | An update changes one entry of one parameter group, and that only when it succeeds |
| `Parameters.FailedWindowStopsTheUpdate` | broker/broker.go:277-283 | If the window step fails, the update fails and the stores are untouched |
| `Parameters.LastAcceptedPolicyWins` | providers/redis/redis.go:79-129 | After a provision and any updates, the stored parameters are the plan's, cluster-enabled defaults to no, the memory policy is the last one accepted, and other parameter groups are untouched |
| `Parameters.LastAcceptedPolicyWinsInterleaved` | providers/redis/redis.go:111-154 | While no provision of the instance is under way, whatever updates, polls and other requests interleave, its stored parameters are what they were, with the policy of the last policy step AWS accepted |
| `Fnv.StepIsBijective` | providers/redis/redis.go:577-578 | Each FNV-1a step on 64-bit states has a two-sided inverse |
| `Fnv.SuffixKeepsDifference` | providers/redis/redis.go:577-578 | Hashing the same suffix from two states ends equal exactly if the states were equal |
| `NamingVector.FoobarHash` | providers/redis/redis.go:577-579 | The hash of foobar is the published one |
| `NamingVector.FoobarName` | providers/redis/redis_test.go:46-47 | The instance foobar gets the name cf-qwkec4pxhft6q |
| `Naming.EveryNameIsLegal` | providers/redis/redis.go:574-582 | Every instance id gets a name of sixteen characters, cf- and thirteen of a-z and 2-7, which ElastiCache's rule allows |
| `Naming.NameDecodesToHash` | providers/redis/redis.go:579-581 | Decoding the thirteen characters gives back the eight hash bytes |
| `Naming.NamesCollideWithHashes` | providers/redis/redis.go:576-582 | Two names are equal exactly if the hashes are |
| `Naming.SuffixKeepsCollisions` | providers/redis/redis.go:576-582 | Appending one suffix to two ids neither makes nor removes a collision |
| `Naming.OneByteApart` | providers/redis/redis.go:576-582 | Ids of equal length that differ in exactly one byte get different names |
| `Base32.BytesOfBits` | providers/redis/redis.go:580-581 | The bits of any bytes, with up to seven padding bits, read back as those bytes |
| `Base32.SymbolsAreTheAlphabet` | providers/redis/redis.go:580 | The thirty-two symbols, written out as in section 6 of RFC 4648 |
| `Token.RandChar` | providers/redis/crypto_rand_utils.go:17-29 | The password is the sequence of characters the drawn indices pick, one draw each |
| `Token.RandomAlphaNum` | providers/redis/crypto_rand_utils.go:13-15 | One letter and then letters and digits, as drawn |
| `Token.TokenShape` | providers/redis/crypto_rand_utils.go:13-15 | A token has the requested length, a letter first, and only letters and digits |
| `Token.TokensAreDistinct` | providers/redis/crypto_rand_utils.go:13-29 | Different draws give different tokens |
| `CredentialUri.UriRoundTrip` | providers/redis/redis.go:465-479 | For any password bytes, plain host and port, reading the URI by section 3.2 of RFC 3986 gives back an empty user, the password, the host and the port |
| `CredentialUri.TokenNeedsNoEscape` | providers/redis/redis.go:465-479 | With a generated token the URI is written without any percent-encoding |
| `CredentialUri.EscapeRoundTrip` | providers/redis/redis.go:470-478 | Percent-encoding of any bytes leaves no delimiter and can be undone |
| `RedisProvider.GetPrimaryAndReplicaCacheClusterIds` | providers/redis/redis.go:58-77 | The scan returns the last primary and the last replica over all node groups, and fails exactly if one is missing |
| `RedisProvider.GetInstanceParameters` | providers/redis/redis.go:627-660 | Active and passive nodes are all primaries and replicas in order, their last ones are what the other scan returns, and the memory policy is the last one stored |
| `RedisProvider.Provider.CreateCacheParameterGroup` | providers/redis/redis.go:79-97 | Makes the two calls of the task, whatever others do between them, and writes the default into the map it is given exactly if the group was created |
| `RedisProvider.Provider.ModifyCacheParameterGroup` | providers/redis/redis.go:111-129 | Sends nothing for an empty map and otherwise a list that stands for exactly the map, whatever order the range takes |
| `RedisProvider.Provider.DeleteCacheParameterGroup` | providers/redis/redis.go:131-144 | A parameter group that is not there counts as deleted |
| `RedisProvider.Provider.CreateReplicationGroup` | providers/redis/redis.go:173-218 | The end of a provision: the group with the tags as a list, or the two clean-up calls, whose errors do not matter |
| `RedisProvider.Provider.constructor` | providers/redis/redis.go:37-56 | A provider names groups by their generated name and secrets by trimmed prefix, id and fixed ends; the instance foobar gets the group cf-qwkec4pxhft6q |
| `RedisProvider.TrimRight` | providers/redis/redis.go:54 | Cuts all trailing slashes of the path and nothing else |
| `RedisProvider.Provider.Provision` | providers/redis/redis.go:157-218 | Makes the very calls of the provision task, in order, and ends as it does, whatever others do between the calls, with a freshly drawn token of 32 characters |
| `RedisProvider.Provider.Deprovision` | providers/redis/redis.go:221-242 | Makes the very calls of the deprovision task, in order, and ends as it does, whatever others do between the calls |
| `RedisProvider.Provider.ProgressState` | providers/redis/redis.go:304-383 | Makes the very calls of the poll task, up to the point where the broker takes over, and answers as it does, whatever others do between the calls |
| `RedisProvider.Provider.StartFailoverTest` | providers/redis/redis.go:666-694 | Makes the very calls of the start task, whatever others do between them, and returns the primary it saw |
| `RedisProvider.Provider.GenerateCredentials` | providers/redis/redis.go:430-480 | Makes the very calls of the bind task, whatever others do between them; host and port are the configuration endpoint's or else the first node group's, the password is the secret's, it fails exactly if one of these is missing, and the URI reads back as the credentials |
| `RedisProvider.Provider.UpdateReplicationGroup` | providers/redis/redis.go:146-149 | The window step of an update; nothing is sent for an empty window |
| `RedisProvider.Provider.UpdateParamGroupParameters` | providers/redis/redis.go:151-154 | One call for any map but the empty one, and for a memory policy the policy step of an update |
| `Broker.CopyParameters` | broker/broker.go:154-157 | The copy is a new map with the plan's entries |
| `Broker.LatestSnapshot` | broker/broker.go:125-152 | Succeeds only with a listed snapshot of the source that none of its others is younger than and that carries the space, organization and plan; refuses only if there is none of the source, or for such a one that does not carry them; fails exactly if AWS does not list what the search follows |
| `Broker.Provision` | broker/broker.go:95-204 | No plan's parameters change though the provider writes into its map; refusals make no call that changes anything, only a refused restore has listed snapshots; otherwise the provision task runs with the plan's parameters, the broker's tags and the name of a listed snapshot that is the newest of its source and matches |
| `Broker.Update` | broker/broker.go:210-312 | Each refusal under exactly its conditions, and without a call; otherwise the window and policy steps or the start of a failover test, whose answer carries the primary seen and the deadline |
| `Broker.LastOperation` | broker/broker.go:376-434 | Unreadable data and late polls exactly as the code finds them, without a call; otherwise the poll of the recorded action and primary. Written out: a failover poll of an available group with HA off cuts over exactly if the primary is the recorded one; every other poll of a group answers succeeded, failed or in progress by its state; without a group it is gone |
| `Broker.RunsPollTheOperation` | broker/broker.go:267-274 | The polls in the runs of a failover test are those of the operation that an update answers, handed back as poll data |
| `Broker.InstanceKeepsItsPlan` | broker/broker.go:68-83 | From any run of broker requests: a group that enters service does so by a provision, and as long as it stays, whatever else runs and in whatever order its tags are listed, they say exactly the service and plan ids of that provision |
| `Broker.GetInstanceIds` | broker/broker.go:73-80 | Service and plan id are what the listed tags say under their keys, the last entry counting, and empty where they say nothing |
| `Pairs.PairsRoundTrip` | providers/redis/redis.go:563-572 | Reading back a list of a map's entries, in any order, gives the map |
| `Pairs.ToPairs` | providers/redis/redis.go:199-204 | Ranging over a map lists each entry once |
| `Pairs.TagsValues` | providers/redis/redis.go:563-572 | The loop reads a list of tags as the map it stands for |
| `Pairs.ReadTagsAreLast` | providers/redis/redis.go:568-570 | For each key that occurs the value of its last entry, nil read as empty, and no other key |
| `ServiceDetails.BrokerTagsSay` | broker/broker.go:177-185 | The seven tags are separate and say what they should |
| `Snapshots.FindSnapshots` | providers/redis/redis.go:491-528 | For any split into pages it succeeds exactly if every snapshot can be read, and then returns the instance's snapshots |
| `Snapshots.ExactlyTheTagged` | providers/redis/redis.go:503-526 | What is found is exactly the snapshots tagged with the instance id, in listed order |
| `Snapshots.ReadableExactlyIf` | providers/redis/redis.go:498-514 | The search succeeds exactly if AWS lists pages and every snapshot in them has a name, a create time and tags |
| `Snapshots.NewestIsListed` | providers/redis/redis.go:503-526 | A newest one of what is found is a listed snapshot with its name and tags, and none listed for the source has a later create time |
| `Snapshots.Sort` | broker/broker.go:57-62 | The in-place sort is a permutation with the newest first |
| `Snapshots.ChooseSnapshot` | broker/broker.go:130-150 | The chosen snapshot is one with the latest create time, and a restore goes ahead only if that one matches space, organization and plan |
| `Lineage.MayRestoreIsTheCheck` | broker/broker.go:125-150 | The restores of a history are exactly those the broker's own search, choice and check let through |
| `Lineage.RestoresStayHome` | broker/broker.go:137-150 | Over any history of provisions, restores and snapshots, an instance has the organization, space and plan of the first instance its data came from |
| `Config.HasPlan` | broker/config.go:161-170 | Finds a plan id exactly if some service of the catalog has it |
| `Config.Validate` | broker/config.go:91-150 | Passes exactly if the fields are there, the catalog's plan ids are the keys of the plan configs, and TLS is acceptable; then plan lookup cannot fail for a catalog plan |

## Left out

- HTTP, TLS serving, flags, logging, config file reading (main.go, broker/tls_config.go, `LoadConfig`): I/O and library calls.
- AWS SDK, contexts and request time-outs: replaced by the stores and by calls that may fail.
- JSON of operation data and user parameters (broker/parameters.go): decoded records are taken instead.
- Calendar text of deadlines: times are whole numbers, and parsing what was formatted is taken as the identity.
- `getMessage`: it only reads, and only the returned state matters.
- Provision's instance type, security groups, subnet group, shard counts, retention limit and window: passed through to AWS unchanged.
- Broker.Deprovision, Bind, Unbind, GetBinding, Services: they only pass on to the provider or to the config.
- The node ids, describe calls and error texts around `GetInstanceParameters`: the loops over nodes and parameters are modelled, on what AWS has described.
- Cluster-mode groups whose members have no current role: `GetInstanceParameters` would dereference nil, so roles are taken as present.
- Calls that only list (snapshots, tags, cache clusters, parameters): what they answer is a parameter, and they are not counted as calls.
- Base32 alphabet and padding are those of section 6 of RFC 4648, and the escaping rules those of net/url: written out from their definitions, since neither library is part of the repository.
- Go's sort: an insertion sort through `Less` and `Swap` stands for it.
- Cryptographic strength of tokens: the random source is any sequence of indices in range.
