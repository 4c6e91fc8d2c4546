/** The broker's code: what it checks, which provider calls it makes, and what it answers. */
module Broker {
  import opened GoTypes
  import opened GoMaps
  import opened Aws
  import opened Requests
  import opened RedisProvider
  import opened Config
  import opened ServiceDetails
  import opened Operations
  import opened Pairs
  import opened Parameters
  import Courses
  import FailoverTestRun
  import Snapshots
  import Lifecycle
  import Token

  // ---- Provision ----

  datatype ProvisionError =
    | ProvisionNeedsAsync | PlanUnknown | SnapshotsUnavailable
    | NotRestorable(why: Snapshots.RestoreError) | NotProvisioned

  /** Decoded user parameters. */
  datatype ProvisionRequest = ProvisionRequest(restoreFromLatestOf: Option<string>, maxMemoryPolicy: Option<string>)

  /** A fresh copy of a plan's parameters. */
  method CopyParameters(plan: StringMap?) returns (copy: StringMap)
    ensures fresh(copy) && copy.m == Entries(plan)
  {
    copy := new StringMap(map[]);
    if plan != null {
      var left := plan.m.Keys;
      while left != {}
        invariant left <= plan.m.Keys
        invariant copy.m.Keys == plan.m.Keys - left
        invariant forall k :: k in copy.m ==> copy.m[k] == plan.m[k]
        decreases left
      {
        var k :| k in left;
        copy.m := copy.m[k := plan.m[k]];
        left := left - {k};
      }
    }
  }

  /** What the provider is handed: the copy, with the user's memory policy. */
  method PrepareParameters(plan: StringMap?, policy: Option<string>) returns (params: StringMap)
    ensures fresh(params) && params.m == WithPolicy(Entries(plan), policy)
  {
    params := CopyParameters(plan);
    if policy.Some? {
      params.m := params.m["maxmemory-policy" := policy.value];
    }
  }

  lemma NothingListed(listing: Snapshots.Listing, source: string)
    requires Snapshots.Readable(listing) && Snapshots.Found(listing, source) == []
    ensures forall s :: Snapshots.IsListed(listing, s) ==> !Snapshots.Carries(listing, s, "instance-id", source)
  {
    Snapshots.ReadableExactlyIf(listing);
    forall s | Snapshots.IsListed(listing, s) ensures !Snapshots.Carries(listing, s, "instance-id", source) {
      Snapshots.FoundAreListed(listing, source, Snapshots.InfoOf(s, listing.tagsOf));
    }
  }

  /** There is no snapshot of the source, or one that none of its others is younger than does not match. */
  ghost predicate IsRefused(listing: Snapshots.Listing, source: string, d: Details, why: Snapshots.RestoreError) {
    if why == Snapshots.NoSnapshots then
      forall s :: Snapshots.IsListed(listing, s) ==> !Snapshots.Carries(listing, s, "instance-id", source)
    else
      exists s ::
        (&& Snapshots.IsListed(listing, s) && Snapshots.Carries(listing, s, "instance-id", source)
         && !(&& Snapshots.Carries(listing, s, "space-id", d.space)
              && Snapshots.Carries(listing, s, "organization-id", d.organization)
              && Snapshots.Carries(listing, s, "plan-id", d.planID))
         && |s.nodeCreateTimes| > 0 && s.nodeCreateTimes[0].Some?
         && (forall t :: Snapshots.IsListed(listing, t) && Snapshots.Carries(listing, t, "instance-id", source) ==>
               && |t.nodeCreateTimes| > 0 && t.nodeCreateTimes[0].Some?
               && t.nodeCreateTimes[0].value <= s.nodeCreateTimes[0].value))
  }

  /** The snapshot chosen is one of the source that none of its others is younger than, and it matches. */
  method LatestSnapshot(listing: Snapshots.Listing, source: string, d: Details)
      returns (r: Result<string, ProvisionError>)
    ensures r.Ok? ==>
      exists s ::
        (&& Snapshots.IsListed(listing, s) && s.name == Some(r.value)
         && Snapshots.Carries(listing, s, "instance-id", source) && Snapshots.Carries(listing, s, "space-id", d.space)
         && Snapshots.Carries(listing, s, "organization-id", d.organization)
         && Snapshots.Carries(listing, s, "plan-id", d.planID)
         && |s.nodeCreateTimes| > 0 && s.nodeCreateTimes[0].Some?
         && (forall t :: Snapshots.IsListed(listing, t) && Snapshots.Carries(listing, t, "instance-id", source) ==>
               && |t.nodeCreateTimes| > 0 && t.nodeCreateTimes[0].Some?
               && t.nodeCreateTimes[0].value <= s.nodeCreateTimes[0].value))
    ensures r.Err? ==> r.error == SnapshotsUnavailable || r.error.NotRestorable?
    ensures r != Err(SnapshotsUnavailable) <==>
      && listing.pages.Some?
      && (forall s :: Snapshots.IsListed(listing, s) ==>
            && s.name.Some? && |s.nodeCreateTimes| > 0 && s.nodeCreateTimes[0].Some?
            && listing.tagsOf(s.name.value).Some?)
    ensures r == Err(NotRestorable(Snapshots.NoSnapshots)) ==>
      forall s :: Snapshots.IsListed(listing, s) ==> !Snapshots.Carries(listing, s, "instance-id", source)
    ensures r.Err? && r.error.NotRestorable? && r.error.why != Snapshots.NoSnapshots ==>
      exists s ::
        (&& Snapshots.IsListed(listing, s) && Snapshots.Carries(listing, s, "instance-id", source)
         && !(&& Snapshots.Carries(listing, s, "space-id", d.space)
              && Snapshots.Carries(listing, s, "organization-id", d.organization)
              && Snapshots.Carries(listing, s, "plan-id", d.planID))
         && |s.nodeCreateTimes| > 0 && s.nodeCreateTimes[0].Some?
         && (forall t :: Snapshots.IsListed(listing, t) && Snapshots.Carries(listing, t, "instance-id", source) ==>
               && |t.nodeCreateTimes| > 0 && t.nodeCreateTimes[0].Some?
               && t.nodeCreateTimes[0].value <= s.nodeCreateTimes[0].value))
  {
    Snapshots.ReadableExactlyIf(listing);
    var found := Snapshots.FindSnapshots(listing, source);
    if found.Err? {
      return Err(SnapshotsUnavailable);
    }
    var chosen := Snapshots.ChooseSnapshot(found.value, d);
    if chosen.Err? {
      if found.value == [] {
        NothingListed(listing, source);
      } else {
        ghost var info :| Snapshots.Newest(info, found.value) && !Snapshots.MatchesDetails(info, d);
        ghost var s := Snapshots.NewestIsListed(listing, source, info);
      }
      return Err(NotRestorable(chosen.error));
    }
    ghost var info :| Snapshots.Newest(info, found.value) && Snapshots.MatchesDetails(info, d)
      && chosen.value == info.name;
    ghost var s := Snapshots.NewestIsListed(listing, source, info);
    return Ok(chosen.value);
  }

  method Provision(
      provider: Provider, c: Config, id: GoString, d: Details, asyncAllowed: bool, user: ProvisionRequest,
      listing: Snapshots.Listing, random: Token.RandReader)
      returns (r: Result<Action, ProvisionError>, ghost spec: ProvisionSpec)
    modifies provider.cloud, random
    // no plan's parameters change, although the provider writes into the map it is given
    ensures forall p :: p in c.planConfigs ==>
      Entries(c.planConfigs[p].parameters) == old(Entries(c.planConfigs[p].parameters))
    ensures r.Err? && r.error != NotProvisioned ==> unchanged(provider.cloud) && unchanged(random)
    ensures r == Err(ProvisionNeedsAsync) <==> !asyncAllowed
    ensures r == Err(PlanUnknown) <==> asyncAllowed && d.planID !in c.planConfigs
    ensures r.Err? && r.error.NotRestorable? ==>
      user.restoreFromLatestOf.Some? && IsRefused(listing, user.restoreFromLatestOf.value, d, r.error.why)
    ensures r == Err(SnapshotsUnavailable) ==>
      && user.restoreFromLatestOf.Some?
      && !(&& listing.pages.Some?
           && (forall s :: Snapshots.IsListed(listing, s) ==>
                 && s.name.Some? && |s.nodeCreateTimes| > 0 && s.nodeCreateTimes[0].Some?
                 && listing.tagsOf(s.name.value).Some?))
    ensures r.Ok? || r == Err(NotProvisioned) ==>
      && asyncAllowed && d.planID in c.planConfigs
      && spec.parameters == (
           var plan := old(Entries(c.planConfigs[d.planID].parameters));
           if user.maxMemoryPolicy.Some? then plan["maxmemory-policy" := user.maxMemoryPolicy.value] else plan)
      && spec.tags == BrokerTags(c.brokerName, d, id)
      && (user.restoreFromLatestOf.None? ==> spec.restoreFrom.None?)
      && (user.restoreFromLatestOf.Some? ==>
            var source := user.restoreFromLatestOf.value;
            exists s ::
              (&& Snapshots.IsListed(listing, s) && s.name.Some? && s.name == spec.restoreFrom
               && Snapshots.Carries(listing, s, "instance-id", source)
               && Snapshots.Carries(listing, s, "space-id", d.space)
               && Snapshots.Carries(listing, s, "organization-id", d.organization)
               && Snapshots.Carries(listing, s, "plan-id", d.planID)
               && |s.nodeCreateTimes| > 0 && s.nodeCreateTimes[0].Some?
               && (forall t ::
                     Snapshots.IsListed(listing, t) && Snapshots.Carries(listing, t, "instance-id", source) ==>
                     && |t.nodeCreateTimes| > 0 && t.nodeCreateTimes[0].Some?
                     && t.nodeCreateTimes[0].value <= s.nodeCreateTimes[0].value)))
      && old(provider.Rest(CreatingParamGroup(id, spec))) ==
         provider.Rest(Finished(id, if r.Ok? then Success else Failed))
    ensures r.Ok? ==> r.value == Provisioning
  {
    spec := ProvisionSpec(map[], map[], None, []);
    if !asyncAllowed {
      return Err(ProvisionNeedsAsync), spec;
    }
    var plan := GetPlanConfig(c, d.planID);
    if plan.Err? {
      return Err(PlanUnknown), spec;
    }
    var snapshot: Option<string> := None;
    if user.restoreFromLatestOf.Some? {
      var latest := LatestSnapshot(listing, user.restoreFromLatestOf.value, d);
      if latest.Err? {
        return Err(latest.error), spec;
      }
      snapshot := Some(latest.value);
    }
    var params := PrepareParameters(plan.value.parameters, user.maxMemoryPolicy);
    var tags := BrokerTags(c.brokerName, d, id);
    var failed;
    failed, spec := provider.Provision(id, params, tags, snapshot, random);
    r := if failed then Err(NotProvisioned) else Ok(Provisioning);
  }

  // ---- Update ----

  datatype UpdateDetails = UpdateDetails(
    planID: string, previousPlanID: string, serviceID: string, previousServiceID: string,
    maxMemoryPolicy: Option<string>, preferredMaintenanceWindow: string, testFailover: Option<bool>)

  datatype UpdateError =
    | UpdateNeedsAsync | PlanChange | NothingToDo | NoPlan | FailoverUnsupported | FailoverNotAlone | NotUpdated

  datatype Operation = Operation(action: Action, primaryNode: string, timeOut: Option<nat>)

  /** A failover test needs an HA plan with replicas, not in cluster mode, and no other change beside it. */
  predicate IsFailoverTest(c: Config, d: UpdateDetails)
    reads if d.planID in c.planConfigs && c.planConfigs[d.planID].parameters != null
          then {c.planConfigs[d.planID].parameters} else {}
  {
    && d.planID == d.previousPlanID && d.serviceID == d.previousServiceID
    && d.testFailover.Some? && d.planID in c.planConfigs
    && ValueAt(Entries(c.planConfigs[d.planID].parameters), "cluster-enabled") != Some("yes")
    && c.planConfigs[d.planID].multiAZEnabled && c.planConfigs[d.planID].automaticFailoverEnabled
    && c.planConfigs[d.planID].replicasPerNodeGroup >= 1
    && d.maxMemoryPolicy.None? && d.preferredMaintenanceWindow == ""
  }

  /** `now` is the clock when the failover test has been accepted. */
  method Update(provider: Provider, c: Config, id: GoString, d: UpdateDetails, asyncAllowed: bool, now: nat)
      returns (r: Result<Operation, UpdateError>)
    requires asyncAllowed && IsFailoverTest(c, d) ==>
      && !provider.cloud.env.faults(provider.cloud.calls)
      && provider.names.group(id) in provider.cloud.Found().groups
    modifies provider.cloud
    ensures r == Err(UpdateNeedsAsync) <==> !asyncAllowed
    ensures r == Err(PlanChange) <==>
      asyncAllowed && (d.planID != d.previousPlanID || d.serviceID != d.previousServiceID)
    ensures r == Err(NothingToDo) <==>
      && asyncAllowed && d.planID == d.previousPlanID && d.serviceID == d.previousServiceID
      && d.testFailover.None? && d.preferredMaintenanceWindow == "" && d.maxMemoryPolicy.None?
    ensures r == Err(NoPlan) <==>
      && asyncAllowed && d.planID == d.previousPlanID && d.serviceID == d.previousServiceID
      && d.testFailover.Some? && d.planID !in c.planConfigs
    ensures r == Err(FailoverUnsupported) <==>
      && asyncAllowed && d.planID == d.previousPlanID && d.serviceID == d.previousServiceID
      && d.testFailover.Some? && d.planID in c.planConfigs
      && var plan, parameters := c.planConfigs[d.planID], old(Entries(c.planConfigs[d.planID].parameters));
         || ("cluster-enabled" in parameters && parameters["cluster-enabled"] == "yes")
         || !plan.multiAZEnabled || !plan.automaticFailoverEnabled || plan.replicasPerNodeGroup < 1
    ensures r == Err(FailoverNotAlone) <==>
      && asyncAllowed && d.planID == d.previousPlanID && d.serviceID == d.previousServiceID
      && d.testFailover.Some? && d.planID in c.planConfigs
      && (var plan, parameters := c.planConfigs[d.planID], old(Entries(c.planConfigs[d.planID].parameters));
          && !("cluster-enabled" in parameters && parameters["cluster-enabled"] == "yes")
          && plan.multiAZEnabled && plan.automaticFailoverEnabled && plan.replicasPerNodeGroup >= 1)
      && (d.maxMemoryPolicy.Some? || d.preferredMaintenanceWindow != "")
    ensures r.Err? && r.error != NotUpdated ==> unchanged(provider.cloud)
    // what is left is carried out: a change of window, policy or both
    ensures (r.Ok? || r == Err(NotUpdated)) && d.testFailover.None? ==>
      && (d.preferredMaintenanceWindow != "" || d.maxMemoryPolicy.Some?)
      && old(provider.Rest(
           if d.preferredMaintenanceWindow != ""
           then UpdatingWindow(id, d.preferredMaintenanceWindow, d.maxMemoryPolicy)
           else UpdatingPolicy(id, d.maxMemoryPolicy.value))) ==
         provider.Rest(Finished(id, if r.Ok? then Success else Failed))
      && (r.Ok? ==> r.value == Operation(Updating, "", None))
    // or the start of a failover test, by whose answer polls know the primary and the deadline
    ensures (r.Ok? || r == Err(NotUpdated)) && d.testFailover.Some? ==>
      && old(provider.Rest(InspectingRoles(id))) ==
         provider.Rest(Finished(id, if r.Ok? then FailoverStarted(r.value.primaryNode) else Failed))
      && (r.Ok? ==>
            && r.value == Operation(FailoverTest, r.value.primaryNode, Some(Deadline(now)))
            && var found := old(provider.cloud.Found());
               r.value.primaryNode == PrimaryIn(found.groups[provider.names.group(id)].nodeGroups))
  {
    if !asyncAllowed {
      return Err(UpdateNeedsAsync);
    }
    if d.planID != d.previousPlanID {
      return Err(PlanChange);
    }
    if d.serviceID != d.previousServiceID {
      return Err(PlanChange);
    }
    if d.maxMemoryPolicy.None? && d.preferredMaintenanceWindow == "" && d.testFailover.None? {
      return Err(NothingToDo);
    }
    if d.testFailover.Some? {
      var plan := GetPlanConfig(c, d.planID);
      if plan.Err? {
        return Err(NoPlan);
      }
      var parameters := plan.value.parameters;
      if parameters != null && "cluster-enabled" in parameters.m && parameters.m["cluster-enabled"] == "yes" {
        return Err(FailoverUnsupported);
      }
      if !plan.value.multiAZEnabled || !plan.value.automaticFailoverEnabled {
        return Err(FailoverUnsupported);
      }
      if plan.value.replicasPerNodeGroup < 1 {
        return Err(FailoverUnsupported);
      }
      if d.maxMemoryPolicy.Some? || d.preferredMaintenanceWindow != "" {
        return Err(FailoverNotAlone);
      }
      var failed, primaryNode := provider.StartFailoverTest(id);
      return if failed then Err(NotUpdated) else Ok(Operation(FailoverTest, primaryNode, Some(Deadline(now))));
    }
    if d.preferredMaintenanceWindow != "" {
      var failed := provider.UpdateReplicationGroup(id, d.preferredMaintenanceWindow, d.maxMemoryPolicy);
      if failed {
        return Err(NotUpdated);
      }
    }
    if d.maxMemoryPolicy.Some? {
      var params := map["maxmemory-policy" := d.maxMemoryPolicy.value];
      var failed := provider.UpdateParamGroupParameters(id, params);
      if failed {
        return Err(NotUpdated);
      }
    }
    return Ok(Operation(Updating, "", None));
  }

  // ---- LastOperation ----

  /** Operation data as the platform hands it back. */
  datatype TimeOut = NoTimeOut | Unreadable | Until(time: nat)

  datatype PollData = NoData | Malformed | Data(action: Option<Action>, primaryNode: string, timeOut: TimeOut)

  datatype PollResult = Invalid | TimedOut | ProviderFailed | DoesNotExist | Reports(state: LastOperationState)

  /** The poll is answered without a look at AWS: its data cannot be read, or it is late. */
  predicate AnsweredAtOnce(data: PollData, now: nat) {
    || data.Malformed?
    || (data.Data? &&
        (data.action.None? || data.timeOut.Unreadable? || (data.timeOut.Until? && now > data.timeOut.time)))
  }

  /** The operation data of an operation as the platform hands it back. */
  function HandedBack(op: Operation): PollData {
    Data(Some(op.action), op.primaryNode, if op.timeOut.Some? then Until(op.timeOut.value) else NoTimeOut)
  }

  /** The polls of a failover test's runs are those of the operation that Update answers, handed back. */
  lemma RunsPollTheOperation(w: FailoverTestRun.World)
    requires w.stage.Running?
    ensures var data := HandedBack(Operation(FailoverTest, w.stage.oldPrimary, Some(w.stage.deadline)));
      && data.Data? && data.action == Some(FailoverTest) && data.primaryNode == w.stage.oldPrimary
      && data.timeOut.Until? && (FailoverTestRun.IsLate(w) <==> w.now > data.timeOut.time)
      && FailoverTestRun.Polled(w)
         == Resume(w.names, Polling(w.id, data.action.value, data.primaryNode), Described(w.group))
  {
  }

  /** What the next poll is going to do, from what it will find. */
  lemma PollCourses(provider: Provider, id: GoString, action: Action, primaryNode: string)
    ensures var name, cloud := provider.names.group(id), provider.cloud;
      var before := cloud.made;
      var course := Requests.CourseOf(
        provider.names, Polling(id, action, primaryNode), cloud.stores, cloud.env, cloud.calls, before);
      !cloud.env.faults(cloud.calls) ==>
      if name !in cloud.Found().groups then
        if action == Deprovisioning then
          && Adds(before, course.made, [DescribeGroup(name), DeleteParamGroup(name)])
          && var reply := ReplyTo(before, course.made, 1);
             course.end.task == Finished(id, if reply.Accepted? || reply == Refused(NotFound) then Gone else Failed)
        else
          Adds(before, course.made, [DescribeGroup(name)]) && course.end.task == Finished(id, Gone)
      else
        var g := cloud.Found().groups[name];
        && (action == FailoverTest && g.status == Some(Available) && g.failover == Some(Disabled)
            && PrimaryIn(g.nodeGroups) != "" && ReplicaIn(g.nodeGroups) != "" ==>
              && Adds(before, course.made, [
                   DescribeGroup(name),
                   ModifyGroup(name,
                     if PrimaryIn(g.nodeGroups) == primaryNode then Cutover(ReplicaIn(g.nodeGroups)) else EnableHA)])
              && course.end.task == Finished(id,
                   if ReplyTo(before, course.made, 1).Accepted? then InState(Modifying) else Failed))
        && (g.status.Some? && !(action == FailoverTest && g.status == Some(Available)) ==>
              && Adds(before, course.made, [DescribeGroup(name)])
              && course.end.task == Finished(id, InState(g.status.value)))
  {
    var name, cloud := provider.names.group(id), provider.cloud;
    if !cloud.env.faults(cloud.calls) {
      if name !in cloud.Found().groups {
        Courses.GoneCourse(
          provider.names, id, action, primaryNode, cloud.stores, cloud.env, cloud.calls, cloud.made);
      } else {
        var g := cloud.Found().groups[name];
        if action == FailoverTest && g.status == Some(Available) && g.failover == Some(Disabled)
           && PrimaryIn(g.nodeGroups) != "" && ReplicaIn(g.nodeGroups) != "" {
          Courses.AdvancingCourse(
            provider.names, id, primaryNode, g, cloud.stores, cloud.env, cloud.calls, cloud.made);
        }
        if g.status.Some? && !(action == FailoverTest && g.status == Some(Available)) {
          Courses.ReportingCourse(
            provider.names, id, action, primaryNode, g, cloud.stores, cloud.env, cloud.calls, cloud.made);
        }
      }
    }
  }

  /** What is left of a poll once its data has been read and it is in time. */
  method PollOf(provider: Provider, id: GoString, action: Action, primaryNode: string)
      returns (r: PollResult, ghost outcome: Outcome)
    requires provider.PointersPresent(id, action)
    modifies provider.cloud
    ensures old(provider.Rest(Polling(id, action, primaryNode))) == provider.Rest(Finished(id, outcome))
    ensures match r
            case ProviderFailed => outcome == Failed
            case DoesNotExist => outcome == Gone
            case Reports(state) => outcome.InState? && state == ProviderStatesMapping(outcome.state).0
            case _ => false
  {
    var failed, state := provider.ProgressState(id, action, primaryNode);
    if failed {
      return ProviderFailed, Failed;
    }
    if state.None? {
      if action == Deprovisioning {
        failed := provider.DeleteCacheParameterGroup(id, DroppingParamGroup(id));
        if failed {
          return ProviderFailed, Failed;
        }
      }
      return DoesNotExist, Gone;
    }
    var (reported, _) := ProviderStatesMapping(state.value);
    return Reports(reported), InState(state.value);
  }

  method LastOperation(provider: Provider, id: GoString, data: PollData, now: nat)
      returns (r: PollResult, ghost outcome: Outcome)
    requires !AnsweredAtOnce(data, now) ==>
      provider.PointersPresent(id, if data.Data? then data.action.value else OtherAction(""))
    modifies provider.cloud
    ensures r == Invalid <==> data.Malformed? || (data.Data? && (data.action.None? || data.timeOut.Unreadable?))
    ensures r == TimedOut <==>
      data.Data? && data.action.Some? && data.timeOut.Until? && now > data.timeOut.time
    ensures r == Invalid || r == TimedOut ==> unchanged(provider.cloud)
    // otherwise it is the poll of the recorded operation, whose outcome is answered
    ensures r != Invalid && r != TimedOut ==>
      && old(provider.Rest(
           if data.Data? then Polling(id, data.action.value, data.primaryNode)
           else Polling(id, OtherAction(""), ""))) == provider.Rest(Finished(id, outcome))
      && match r
         case ProviderFailed => outcome == Failed
         case DoesNotExist => outcome == Gone
         case Reports(state) => outcome.InState? && state == ProviderStatesMapping(outcome.state).0
         case _ => false
    // a failover poll of an available group with HA off cuts over from the recorded primary, or enables HA
    ensures r != Invalid && r != TimedOut && data.Data? && data.action == Some(FailoverTest) ==>
      var name, cloud := provider.names.group(id), provider.cloud;
      old(!cloud.env.faults(cloud.calls) && name in cloud.Found().groups) ==>
      var g := old(cloud.Found().groups[name]);
      && g.status == Some(Available) && g.failover == Some(Disabled)
      && PrimaryIn(g.nodeGroups) != "" && ReplicaIn(g.nodeGroups) != "" ==>
      && Adds(old(cloud.made), cloud.made, [
           DescribeGroup(name),
           ModifyGroup(name,
             if PrimaryIn(g.nodeGroups) == data.primaryNode then Cutover(ReplicaIn(g.nodeGroups)) else EnableHA)])
      && r == if ReplyTo(old(cloud.made), cloud.made, 1).Accepted? then Reports(InProgress) else ProviderFailed
    // any other poll of a group reports the state it sees
    ensures r != Invalid && r != TimedOut ==>
      var name, cloud := provider.names.group(id), provider.cloud;
      old(!cloud.env.faults(cloud.calls) && name in cloud.Found().groups) ==>
      var g := old(cloud.Found().groups[name]);
      && g.status.Some?
      && !(data.Data? && data.action == Some(FailoverTest) && g.status == Some(Available)) ==>
      && Adds(old(cloud.made), cloud.made, [DescribeGroup(name)])
      && r.Reports?
      && (r.state == Succeeded <==> g.status == Some(Available))
      && (r.state == OperationFailed <==> g.status == Some(CreateFailed))
    // where there is no group, a deprovisioning poll drops the parameter group
    ensures r != Invalid && r != TimedOut ==>
      var name, cloud := provider.names.group(id), provider.cloud;
      old(!cloud.env.faults(cloud.calls) && name !in cloud.Found().groups) ==>
      if data.Data? && data.action == Some(Deprovisioning) then
        && Adds(old(cloud.made), cloud.made, [DescribeGroup(name), DeleteParamGroup(name)])
        && var reply := ReplyTo(old(cloud.made), cloud.made, 1);
           r == if reply.Accepted? || reply == Refused(NotFound) then DoesNotExist else ProviderFailed
      else
        && Adds(old(cloud.made), cloud.made, [DescribeGroup(name)]) && r == DoesNotExist
  {
    outcome := Failed;
    var action, primaryNode := OtherAction(""), "";
    if data.Malformed? {
      return Invalid, outcome;
    }
    if data.Data? {
      if data.action.None? {
        return Invalid, outcome;
      }
      action, primaryNode := data.action.value, data.primaryNode;
      if !data.timeOut.NoTimeOut? {
        if data.timeOut.Unreadable? {
          return Invalid, outcome;
        }
        if now > data.timeOut.time {
          return TimedOut, outcome;
        }
      }
    }
    PollCourses(provider, id, action, primaryNode);
    r, outcome := PollOf(provider, id, action, primaryNode);
  }

  // ---- GetInstance ----

  /** Service and plan id as the tags that AWS lists for the group say, empty where they say nothing. */
  method GetInstanceIds(tagList: TagList) returns (serviceID: string, planID: string)
    ensures Says(tagList, "service-id", serviceID)
         || (serviceID == "" && forall i :: 0 <= i < |tagList| ==> tagList[i].0 != Some("service-id"))
    ensures Says(tagList, "plan-id", planID)
         || (planID == "" && forall i :: 0 <= i < |tagList| ==> tagList[i].0 != Some("plan-id"))
  {
    var tags := TagsValues(tagList);
    serviceID := if "service-id" in tags then tags["service-id"] else "";
    planID := if "plan-id" in tags then tags["plan-id"] else "";
    ReadTagsSay(tagList, "service-id", serviceID);
    ReadTagsSay(tagList, "plan-id", planID);
    KeysAreRead(tagList, "service-id");
    KeysAreRead(tagList, "plan-id");
  }

  lemma KeysAreRead(tagList: TagList, key: string)
    ensures key !in FromPairs(ReadTags(tagList)) ==> forall i :: 0 <= i < |tagList| ==> tagList[i].0 != Some(key)
  {
    if i :| 0 <= i < |tagList| && tagList[i].0 == Some(key) {
      assert ReadTags(tagList)[i].0 == key;
      KeyIsRead(ReadTags(tagList), i);
    }
  }

  lemma {:induction false} KeyIsRead(list: seq<Pair>, i: nat)
    requires i < |list|
    ensures list[i].0 in FromPairs(list)
    decreases |list|
  {
    if i < |list| - 1 {
      KeyIsRead(list[..|list| - 1], i);
    }
  }

  // ---- from the provision to GetInstance ----

  /** The list has exactly the tags, in some order. */
  ghost predicate ListsTags(list: TagList, tags: map<string, string>) {
    && (forall i :: 0 <= i < |list| ==>
          list[i].0.Some? && list[i].1.Some? && list[i].0.value in tags && tags[list[i].0.value] == list[i].1.value)
    && (forall key :: key in tags ==> (Some(key), Some(tags[key])) in list)
  }

  lemma ListedTagsSay(list: TagList, tags: map<string, string>, key: string)
    requires ListsTags(list, tags) && key in tags
    ensures forall value :: Says(list, key, value) <==> value == tags[key]
  {
    var read := ReadTags(list);
    assert Lists(read, tags) by {
      forall k | k in tags ensures (k, tags[k]) in read {
        var i :| 0 <= i < |list| && list[i] == (Some(k), Some(tags[k]));
        assert read[i] == (k, tags[k]);
      }
    }
    PairsRoundTrip(read, tags);
    forall value ensures Says(list, key, value) <==> value == tags[key] {
      ReadTagsSay(list, key, value);
    }
  }

  /** Provisions come from Broker.Provision, which hands over its own tags; `details` are those of each request. */
  predicate SentByBroker(e: Lifecycle.Event, brokerName: string, details: nat -> Details) {
    e.Arrive? && Lifecycle.IsProvision(e.request) ==>
      e.request.spec.tags == BrokerTags(brokerName, details(e.pid), e.request.id)
  }

  ghost predicate AllTagged(w: Lifecycle.World, brokerName: string, details: nat -> Details) {
    forall p :: p in w.tasks && Lifecycle.IsProvision(w.tasks[p]) ==>
      w.tasks[p].spec.tags == BrokerTags(brokerName, details(p), w.tasks[p].id)
  }

  lemma SpecIsKept(names: Names, t: Task, reply: Reply)
    requires !t.Finished? && Lifecycle.IsProvision(Resume(names, t, reply))
    ensures Lifecycle.IsProvision(t) && Resume(names, t, reply).spec == t.spec
  {
  }

  lemma TaggedStep(w: Lifecycle.World, e: Lifecycle.Event, brokerName: string, details: nat -> Details)
    requires AllTagged(w, brokerName, details) && SentByBroker(e, brokerName, details)
    ensures AllTagged(Lifecycle.Exec(w, e), brokerName, details)
  {
    if e.Step? && e.pid in w.tasks && !w.tasks[e.pid].Finished? {
      var t := w.tasks[e.pid];
      var (s', reply) := Apply(w.stores, NextCall(w.names, t), e.fault);
      if Lifecycle.IsProvision(Resume(w.names, t, reply)) {
        SpecIsKept(w.names, t, reply);
      }
    }
  }

  lemma {:induction false} TaggedAlways(
      w: Lifecycle.World, es: seq<Lifecycle.Event>, brokerName: string, details: nat -> Details)
    requires AllTagged(w, brokerName, details)
    requires forall k :: 0 <= k < |es| ==> SentByBroker(es[k], brokerName, details)
    ensures AllTagged(Lifecycle.Run(w, es), brokerName, details)
    decreases |es|
  {
    if es != [] {
      TaggedStep(w, es[0], brokerName, details);
      TaggedAlways(Lifecycle.Exec(w, es[0]), es[1..], brokerName, details);
    }
  }

  /**
   * Whatever ran before, a group enters service by event e and stays in service, however long and
   * whatever requests run beside it. Then, in whatever order AWS lists its tags, GetInstance reports the
   * service and plan of the provision that created the group.
   */
  lemma InstanceKeepsItsPlan(
      w: Lifecycle.World, before: seq<Lifecycle.Event>, e: Lifecycle.Event, during: seq<Lifecycle.Event>,
      id: GoString, brokerName: string, details: nat -> Details, tagList: TagList)
    requires Lifecycle.Start(w) && id in w.ids
    requires forall k :: 0 <= k < |before| ==> SentByBroker(before[k], brokerName, details)
    requires !Lifecycle.InService(Lifecycle.Run(w, before), id)
    requires Lifecycle.InServiceThroughout(Lifecycle.Exec(Lifecycle.Run(w, before), e), during, id)
    requires var now := Lifecycle.Run(Lifecycle.Exec(Lifecycle.Run(w, before), e), during);
      Lifecycle.InService(now, id) && ListsTags(tagList, Lifecycle.TagsOf(now, id))
    ensures e.Step? && e.pid in Lifecycle.Run(w, before).tasks
    ensures Lifecycle.Run(w, before).tasks[e.pid].CreatingGroup? && Lifecycle.Run(w, before).tasks[e.pid].id == id
    ensures forall value :: Says(tagList, "service-id", value) <==> value == details(e.pid).serviceID
    ensures forall value :: Says(tagList, "plan-id", value) <==> value == details(e.pid).planID
  {
    var entering := Lifecycle.Run(w, before);
    Lifecycle.OwnershipAlways(w, before);
    Lifecycle.NamesAndIdsFixed(w, before);
    Lifecycle.EntersByProvision(entering, e, id);
    TaggedAlways(w, before, brokerName, details);
    Lifecycle.OnePasswordForLife(Lifecycle.Exec(entering, e), during, id);
    var tags := BrokerTags(brokerName, details(e.pid), id);
    BrokerTagsSay(brokerName, details(e.pid), id);
    ListedTagsSay(tagList, tags, "service-id");
    ListedTagsSay(tagList, tags, "plan-id");
  }
}
