/**
 * Each request call by call, in AWS's terms: which calls it makes, what makes it go on, and how it ends,
 * whatever others do to the stores in between.
 */
module Courses {
  import opened GoTypes
  import opened Aws
  import opened Naming
  import opened Requests

  /** The first call of a task, what AWS answers, and the task after it. */
  lemma OneCall(names: Names, t: Task, s: Stores, env: Environment, n: nat, before: seq<Exchange>)
      returns (s': Stores, reply: Reply)
    requires !t.Finished?
    ensures (s', reply) == Serve(env, s, NextCall(names, t), n)
    ensures CourseOf(names, t, s, env, n, before)
         == CourseOf(names, Resume(names, t, reply), s', env, n + 1, before + [Exchange(NextCall(names, t), reply)])
  {
    Unroll(names, t, s, env, n, before);
    s', reply := Serve(env, s, NextCall(names, t), n).0, Serve(env, s, NextCall(names, t), n).1;
  }

  lemma AddsFirst(before: seq<Exchange>, e: Exchange, after: seq<Exchange>, calls: seq<Call>)
    requires Adds(before + [e], after, calls)
    ensures Adds(before, after, [e.call] + calls) && ReplyTo(before, after, 0) == e.reply
    ensures forall i :: 0 < i <= |calls| ==> ReplyTo(before, after, i) == ReplyTo(before + [e], after, i - 1)
  {
  }

  /** The first of a list of calls, and k more of it. */
  lemma AddsPrefix(
      before: seq<Exchange>, e: Exchange, after: seq<Exchange>, calls: seq<Call>, rest: seq<Call>, k: nat)
    requires calls == [e.call] + rest && k <= |rest| && Adds(before + [e], after, rest[..k])
    ensures Adds(before, after, calls[..k + 1]) && |after| - |before| == k + 1
    ensures ReplyTo(before, after, 0) == e.reply
    ensures forall i :: 0 < i <= k ==> ReplyTo(before, after, i) == ReplyTo(before + [e], after, i - 1)
  {
    AddsFirst(before, e, after, rest[..k]);
    assert calls[..k + 1] == [e.call] + rest[..k];
  }

  /** The first of a list of calls, and none more. */
  lemma AddsOnly(before: seq<Exchange>, e: Exchange, calls: seq<Call>, rest: seq<Call>)
    requires calls == [e.call] + rest
    ensures Adds(before, before + [e], calls[..1]) && |before + [e]| - |before| == 1
    ensures ReplyTo(before, before + [e], 0) == e.reply
  {
    AddsOne(before, e);
    assert calls[..1] == [e.call];
  }

  lemma AddsOne(before: seq<Exchange>, e: Exchange)
    ensures Adds(before, before + [e], [e.call]) && ReplyTo(before, before + [e], 0) == e.reply
  {
  }

  /** A request whose last call this is. */
  lemma LastCall(names: Names, t: Task, s: Stores, env: Environment, n: nat, before: seq<Exchange>)
      returns (reply: Reply)
    requires !t.Finished?
    requires forall r :: Resume(names, t, r).Finished?
    ensures reply == Serve(env, s, NextCall(names, t), n).1
    ensures var course := CourseOf(names, t, s, env, n, before);
      && course.end.task == Resume(names, t, reply)
      && Adds(before, course.made, [NextCall(names, t)]) && ReplyTo(before, course.made, 0) == reply
  {
    var s';
    s', reply := OneCall(names, t, s, env, n, before);
    AddsOne(before, Exchange(NextCall(names, t), reply));
  }

  // ---- Provision ----

  /** The clean-up makes both of its calls, whatever the replies. */
  lemma CleanUpCourse(
      names: Names, id: GoString, spec: ProvisionSpec, s: Stores, env: Environment, n: nat, before: seq<Exchange>)
    ensures var course := CourseOf(names, UndoingParamGroup(id, spec), s, env, n, before);
      && course.end.task == Finished(id, Failed)
      && Adds(before, course.made, [DeleteParamGroup(names.group(id)), DeleteSecret(names.secret(id), 7)])
  {
    var t := UndoingParamGroup(id, spec);
    var s', reply := OneCall(names, t, s, env, n, before);
    var e := Exchange(DeleteParamGroup(names.group(id)), reply);
    var last := LastCall(names, UndoingSecret(id, spec), s', env, n + 1, before + [e]);
    AddsFirst(before, e, CourseOf(names, t, s, env, n, before).made, [DeleteSecret(names.secret(id), 7)]);
  }

  // The calls from each point on, each of them in front of the ones after it.

  function CreateCalls(names: Names, id: GoString, spec: ProvisionSpec): seq<Call> {
    [CreateGroup(names.group(id), spec.token, spec.tags, spec.restoreFrom)]
    + [DeleteParamGroup(names.group(id)), DeleteSecret(names.secret(id), 7)]
  }

  function SecretCalls(names: Names, id: GoString, spec: ProvisionSpec): seq<Call> {
    [CreateSecret(names.secret(id), spec.token)] + CreateCalls(names, id, spec)
  }

  function ParamsCalls(names: Names, id: GoString, spec: ProvisionSpec): seq<Call> {
    [ModifyParamGroup(names.group(id), WithClusterDefault(spec.parameters))] + SecretCalls(names, id, spec)
  }

  /** Creating the group ends the request if it is accepted, and starts the clean-up if it is not. */
  lemma CreateCourse(
      names: Names, id: GoString, spec: ProvisionSpec, s: Stores, env: Environment, n: nat, before: seq<Exchange>)
    ensures var course := CourseOf(names, CreatingGroup(id, spec), s, env, n, before);
      var made := |course.made| - |before|;
      && made in {1, 3} && Adds(before, course.made, CreateCalls(names, id, spec)[..made])
      && (ReplyTo(before, course.made, 0).Accepted? <==> made == 1)
      && course.end.task == Finished(id, if made == 1 then Success else Failed)
  {
    var t, calls := CreatingGroup(id, spec), CreateCalls(names, id, spec);
    var s', reply := OneCall(names, t, s, env, n, before);
    var e := Exchange(calls[0], reply);
    var undo := [DeleteParamGroup(names.group(id)), DeleteSecret(names.secret(id), 7)];
    if reply.Accepted? {
      AddsOnly(before, e, calls, undo);
    } else {
      CleanUpCourse(names, id, spec, s', env, n + 1, before + [e]);
      assert undo[..2] == undo;
      AddsPrefix(before, e, CourseOf(names, t, s, env, n, before).made, calls, undo, 2);
    }
  }

  lemma SecretCourse(
      names: Names, id: GoString, spec: ProvisionSpec, s: Stores, env: Environment, n: nat, before: seq<Exchange>)
    ensures var course := CourseOf(names, CreatingSecret(id, spec), s, env, n, before);
      var made := |course.made| - |before|;
      && made in {1, 2, 4} && Adds(before, course.made, SecretCalls(names, id, spec)[..made])
      && (ReplyTo(before, course.made, 0).Accepted? <==> made > 1)
      && (made > 1 ==> (ReplyTo(before, course.made, 1).Accepted? <==> made == 2))
      && course.end.task == Finished(id, if made == 2 then Success else Failed)
  {
    var t, calls, rest := CreatingSecret(id, spec), SecretCalls(names, id, spec), CreateCalls(names, id, spec);
    var s', reply := OneCall(names, t, s, env, n, before);
    var e := Exchange(calls[0], reply);
    if reply.Accepted? {
      CreateCourse(names, id, spec, s', env, n + 1, before + [e]);
      var after := CourseOf(names, CreatingGroup(id, spec), s', env, n + 1, before + [e]).made;
      AddsPrefix(before, e, after, calls, rest, |after| - |before + [e]|);
    } else {
      AddsOnly(before, e, calls, rest);
    }
  }

  lemma ParamsCourse(
      names: Names, id: GoString, spec: ProvisionSpec, s: Stores, env: Environment, n: nat, before: seq<Exchange>)
    ensures var course := CourseOf(names, SettingParams(id, spec), s, env, n, before);
      var made := |course.made| - |before|;
      && made in {1, 2, 3, 5} && Adds(before, course.made, ParamsCalls(names, id, spec)[..made])
      && (forall i :: 0 <= i < 2 && i < made ==> (ReplyTo(before, course.made, i).Accepted? <==> i + 1 < made))
      && (made > 2 ==> (ReplyTo(before, course.made, 2).Accepted? <==> made == 3))
      && course.end.task == Finished(id, if made == 3 then Success else Failed)
  {
    var t, calls, rest := SettingParams(id, spec), ParamsCalls(names, id, spec), SecretCalls(names, id, spec);
    var s', reply := OneCall(names, t, s, env, n, before);
    var e := Exchange(calls[0], reply);
    if reply.Accepted? {
      SecretCourse(names, id, spec, s', env, n + 1, before + [e]);
      var after := CourseOf(names, CreatingSecret(id, spec), s', env, n + 1, before + [e]).made;
      AddsPrefix(before, e, after, calls, rest, |after| - |before + [e]|);
    } else {
      AddsOnly(before, e, calls, rest);
    }
  }

  function ProvisionCalls(names: Names, id: GoString, spec: ProvisionSpec): seq<Call> {
    [CreateParamGroup(names.group(id))] + ParamsCalls(names, id, spec)
  }

  lemma GroupCourse(
      names: Names, id: GoString, spec: ProvisionSpec, s: Stores, env: Environment, n: nat, before: seq<Exchange>)
    ensures var course := CourseOf(names, CreatingParamGroup(id, spec), s, env, n, before);
      var made := |course.made| - |before|;
      && made in {1, 2, 3, 4, 6} && Adds(before, course.made, ProvisionCalls(names, id, spec)[..made])
      && (forall i :: 0 <= i < 3 && i < made ==> (ReplyTo(before, course.made, i).Accepted? <==> i + 1 < made))
      && (made >= 4 ==> (ReplyTo(before, course.made, 3).Accepted? <==> made == 4))
      && course.end.task == Finished(id, if made == 4 then Success else Failed)
  {
    var t, calls, rest := CreatingParamGroup(id, spec), ProvisionCalls(names, id, spec), ParamsCalls(names, id, spec);
    var s', reply := OneCall(names, t, s, env, n, before);
    var e := Exchange(calls[0], reply);
    if reply.Accepted? {
      ParamsCourse(names, id, spec, s', env, n + 1, before + [e]);
      var after := CourseOf(names, SettingParams(id, spec), s', env, n + 1, before + [e]).made;
      AddsPrefix(before, e, after, calls, rest, |after| - |before + [e]|);
    } else {
      AddsOnly(before, e, calls, rest);
    }
  }

  /**
   * A provision makes these calls, each of the first three followed by the next one exactly if it is
   * accepted; the clean-up follows exactly if the fourth is not. It succeeds exactly if that one is.
   */
  lemma ProvisionCourse(
      names: Names, id: GoString, spec: ProvisionSpec, s: Stores, env: Environment, n: nat, before: seq<Exchange>)
    ensures var course := CourseOf(names, CreatingParamGroup(id, spec), s, env, n, before);
      var name, path, plan := names.group(id), names.secret(id), spec.parameters;
      var full := if "cluster-enabled" in plan then plan else plan["cluster-enabled" := "no"];
      var calls := [
        CreateParamGroup(name), ModifyParamGroup(name, full), CreateSecret(path, spec.token),
        CreateGroup(name, spec.token, spec.tags, spec.restoreFrom),
        DeleteParamGroup(name), DeleteSecret(path, 7)];
      var made := |course.made| - |before|;
      && made in {1, 2, 3, 4, 6} && Adds(before, course.made, calls[..made])
      && (forall i :: 0 <= i < 3 && i < made ==> (ReplyTo(before, course.made, i).Accepted? <==> i + 1 < made))
      && (made >= 4 ==> (ReplyTo(before, course.made, 3).Accepted? <==> made == 4))
      && course.end.task == Finished(id, if made == 4 then Success else Failed)
  {
    var name, path, plan := names.group(id), names.secret(id), spec.parameters;
    var full := if "cluster-enabled" in plan then plan else plan["cluster-enabled" := "no"];
    assert ProvisionCalls(names, id, spec) == [
      CreateParamGroup(name), ModifyParamGroup(name, full), CreateSecret(path, spec.token),
      CreateGroup(name, spec.token, spec.tags, spec.restoreFrom),
      DeleteParamGroup(name), DeleteSecret(path, 7)];
    GroupCourse(names, id, spec, s, env, n, before);
  }

  // ---- Deprovision ----

  /** The group first, and the secret exactly if that is accepted; it succeeds exactly if both are. */
  lemma DeprovisionCourse(
      names: Names, id: GoString, s: Stores, env: Environment, n: nat, before: seq<Exchange>)
    ensures var course := CourseOf(names, DeletingGroup(id), s, env, n, before);
      var made := |course.made| - |before|;
      && 1 <= made <= 2
      && Adds(before, course.made, [DeleteGroup(names.group(id)), DeleteSecret(names.secret(id), 30)][..made])
      && (made == 2 <==> ReplyTo(before, course.made, 0).Accepted?)
      && course.end.task == Finished(id,
           if made == 2 && ReplyTo(before, course.made, 1).Accepted? then Success else Failed)
  {
    var t, rest := DeletingGroup(id), [DeleteSecret(names.secret(id), 30)];
    var s', reply := OneCall(names, t, s, env, n, before);
    var e := Exchange(DeleteGroup(names.group(id)), reply);
    var calls := [e.call] + rest;
    assert calls == [DeleteGroup(names.group(id)), DeleteSecret(names.secret(id), 30)];
    if reply.Accepted? {
      var last := LastCall(names, DeletingSecret(id), s', env, n + 1, before + [e]);
      var after := CourseOf(names, DeletingSecret(id), s', env, n + 1, before + [e]).made;
      assert rest[..1] == rest;
      AddsPrefix(before, e, after, calls, rest, 1);
    } else {
      AddsOnly(before, e, calls, rest);
    }
  }

  // ---- Update ----

  lemma PolicyCourse(
      names: Names, id: GoString, policy: string, s: Stores, env: Environment, n: nat, before: seq<Exchange>)
    ensures var course := CourseOf(names, UpdatingPolicy(id, policy), s, env, n, before);
      && Adds(before, course.made, [ModifyParamGroup(names.group(id), map["maxmemory-policy" := policy])])
      && course.end.task ==
           Finished(id, if ReplyTo(before, course.made, 0).Accepted? then Success else Failed)
  {
    var last := LastCall(names, UpdatingPolicy(id, policy), s, env, n, before);
  }

  /** The window first, and the policy, if there is one, exactly if that is accepted. */
  lemma WindowCourse(
      names: Names, id: GoString, window: string, policy: Option<string>,
      s: Stores, env: Environment, n: nat, before: seq<Exchange>)
    ensures var course := CourseOf(names, UpdatingWindow(id, window, policy), s, env, n, before);
      var name, made := names.group(id), |course.made| - |before|;
      && 1 <= made <= 2 && (made == 2 <==> policy.Some? && ReplyTo(before, course.made, 0).Accepted?)
      && Adds(before, course.made, ([ModifyGroup(name, SetWindow(window))] + (
           if policy.Some? then [ModifyParamGroup(name, map["maxmemory-policy" := policy.value])] else []))[..made])
      && course.end.task == Finished(id,
           if ReplyTo(before, course.made, made - 1).Accepted? then Success else Failed)
  {
    var t := UpdatingWindow(id, window, policy);
    var rest :=
      if policy.Some? then [ModifyParamGroup(names.group(id), map["maxmemory-policy" := policy.value])] else [];
    var s', reply := OneCall(names, t, s, env, n, before);
    var e := Exchange(ModifyGroup(names.group(id), SetWindow(window)), reply);
    if reply.Accepted? && policy.Some? {
      PolicyCourse(names, id, policy.value, s', env, n + 1, before + [e]);
      var after := CourseOf(names, UpdatingPolicy(id, policy.value), s', env, n + 1, before + [e]).made;
      assert rest[..1] == rest;
      AddsPrefix(before, e, after, [e.call] + rest, rest, 1);
    } else {
      AddsOnly(before, e, [e.call] + rest, rest);
    }
  }

  // ---- the start of a failover test ----

  /** On a described group with both roles HA is switched off, and the primary seen is the one recorded. */
  lemma StartCourse(
      names: Names, id: GoString, g: Group, s: Stores, env: Environment, n: nat, before: seq<Exchange>)
    requires Serve(env, s, DescribeGroup(names.group(id)), n).1 == Described(g)
    ensures var course := CourseOf(names, InspectingRoles(id), s, env, n, before);
      var name, primary, replica := names.group(id), PrimaryIn(g.nodeGroups), ReplicaIn(g.nodeGroups);
      if primary == "" || replica == "" then
        && Adds(before, course.made, [DescribeGroup(name)]) && course.end.task == Finished(id, Failed)
      else
        && Adds(before, course.made, [DescribeGroup(name), ModifyGroup(name, DisableHA)])
        && course.end.task == Finished(id,
             if ReplyTo(before, course.made, 1).Accepted? then FailoverStarted(primary) else Failed)
  {
    var t, name := InspectingRoles(id), names.group(id);
    var rest := [ModifyGroup(name, DisableHA)];
    var s', reply := OneCall(names, t, s, env, n, before);
    var e := Exchange(DescribeGroup(name), reply);
    if PrimaryIn(g.nodeGroups) == "" || ReplicaIn(g.nodeGroups) == "" {
      AddsOne(before, e);
    } else {
      var next := DisablingHA(id, PrimaryIn(g.nodeGroups));
      var last := LastCall(names, next, s', env, n + 1, before + [e]);
      AddsFirst(before, e, CourseOf(names, next, s', env, n + 1, before + [e]).made, rest);
      assert [e.call] + rest == [DescribeGroup(name), ModifyGroup(name, DisableHA)];
    }
  }

  // ---- LastOperation ----

  /** A poll that has only to describe the group. */
  lemma DescribeOnly(
      names: Names, t: Task, s: Stores, env: Environment, n: nat, before: seq<Exchange>)
    requires t.Polling?
    requires Resume(names, t, Serve(env, s, DescribeGroup(names.group(t.id)), n).1).Finished?
    ensures var course := CourseOf(names, t, s, env, n, before);
      var reply := Serve(env, s, DescribeGroup(names.group(t.id)), n).1;
      && Adds(before, course.made, [DescribeGroup(names.group(t.id))])
      && course.end.task == Resume(names, t, reply)
  {
    var s', reply := OneCall(names, t, s, env, n, before);
    var e := Exchange(DescribeGroup(names.group(t.id)), reply);
    AddsOne(before, e);
  }

  /** A poll that goes on to one more call. */
  lemma DescribeAndOne(
      names: Names, t: Task, next: Task, s: Stores, env: Environment, n: nat, before: seq<Exchange>)
    requires t.Polling? && (next.Advancing? || next.DroppingParamGroup?)
    requires Resume(names, t, Serve(env, s, DescribeGroup(names.group(t.id)), n).1) == next
    ensures var course := CourseOf(names, t, s, env, n, before);
      && Adds(before, course.made, [DescribeGroup(names.group(t.id)), NextCall(names, next)])
      && course.end.task == Resume(names, next, ReplyTo(before, course.made, 1))
  {
    var s', reply := OneCall(names, t, s, env, n, before);
    var e := Exchange(DescribeGroup(names.group(t.id)), reply);
    var last := LastCall(names, next, s', env, n + 1, before + [e]);
    AddsFirst(before, e, CourseOf(names, next, s', env, n + 1, before + [e]).made, [NextCall(names, next)]);
    assert [e.call] + [NextCall(names, next)] == [DescribeGroup(names.group(t.id)), NextCall(names, next)];
  }

  /** A failover poll that finds the group available, HA off and both roles: the two modifications. */
  lemma AdvancingCourse(
      names: Names, id: GoString, oldPrimary: string, g: Group,
      s: Stores, env: Environment, n: nat, before: seq<Exchange>)
    requires Serve(env, s, DescribeGroup(names.group(id)), n).1 == Described(g)
    requires g.status == Some(Available) && g.failover == Some(Disabled)
    requires PrimaryIn(g.nodeGroups) != "" && ReplicaIn(g.nodeGroups) != ""
    ensures var course := CourseOf(names, Polling(id, FailoverTest, oldPrimary), s, env, n, before);
      var name := names.group(id);
      && Adds(before, course.made, [
           DescribeGroup(name),
           ModifyGroup(name,
             if PrimaryIn(g.nodeGroups) == oldPrimary then Cutover(ReplicaIn(g.nodeGroups)) else EnableHA)])
      && course.end.task == Finished(id,
           if ReplyTo(before, course.made, 1).Accepted? then InState(Modifying) else Failed)
  {
    var change := if PrimaryIn(g.nodeGroups) == oldPrimary then Cutover(ReplicaIn(g.nodeGroups)) else EnableHA;
    DescribeAndOne(names, Polling(id, FailoverTest, oldPrimary), Advancing(id, change), s, env, n, before);
  }

  /** Any other poll of a group with a status reports that status, after one call. */
  lemma ReportingCourse(
      names: Names, id: GoString, action: Action, oldPrimary: string, g: Group,
      s: Stores, env: Environment, n: nat, before: seq<Exchange>)
    requires Serve(env, s, DescribeGroup(names.group(id)), n).1 == Described(g) && g.status.Some?
    requires action == FailoverTest && g.status == Some(Available) ==>
      && PrimaryIn(g.nodeGroups) != "" && ReplicaIn(g.nodeGroups) != ""
      && g.failover.Some? && g.failover != Some(Disabled)
    ensures var course := CourseOf(names, Polling(id, action, oldPrimary), s, env, n, before);
      && Adds(before, course.made, [DescribeGroup(names.group(id))])
      && course.end.task == Finished(id, InState(g.status.value))
  {
    DescribeOnly(names, Polling(id, action, oldPrimary), s, env, n, before);
  }

  /** Where there is no group, a deprovisioning poll drops the parameter group, and no other poll does anything. */
  lemma GoneCourse(
      names: Names, id: GoString, action: Action, oldPrimary: string,
      s: Stores, env: Environment, n: nat, before: seq<Exchange>)
    requires Serve(env, s, DescribeGroup(names.group(id)), n).1 == Refused(NotFound)
    ensures var course := CourseOf(names, Polling(id, action, oldPrimary), s, env, n, before);
      var name := names.group(id);
      if action == Deprovisioning then
        && Adds(before, course.made, [DescribeGroup(name), DeleteParamGroup(name)])
        && var reply := ReplyTo(before, course.made, 1);
           course.end.task == Finished(id, if reply.Accepted? || reply == Refused(NotFound) then Gone else Failed)
      else
        && Adds(before, course.made, [DescribeGroup(name)]) && course.end.task == Finished(id, Gone)
  {
    if action == Deprovisioning {
      DescribeAndOne(names, Polling(id, action, oldPrimary), DroppingParamGroup(id), s, env, n, before);
    } else {
      DescribeOnly(names, Polling(id, action, oldPrimary), s, env, n, before);
    }
  }

  /** A poll that gets no answer, or one without a status, or without roles where they matter, fails. */
  lemma FailingCourse(
      names: Names, id: GoString, action: Action, oldPrimary: string,
      s: Stores, env: Environment, n: nat, before: seq<Exchange>)
    requires var reply := Serve(env, s, DescribeGroup(names.group(id)), n).1;
      if reply.Described? then
        || reply.group.status.None?
        || (&& action == FailoverTest && reply.group.status == Some(Available)
            && (PrimaryIn(reply.group.nodeGroups) == "" || ReplicaIn(reply.group.nodeGroups) == ""))
      else reply != Refused(NotFound)
    ensures var course := CourseOf(names, Polling(id, action, oldPrimary), s, env, n, before);
      && Adds(before, course.made, [DescribeGroup(names.group(id))])
      && course.end.task == Finished(id, Failed)
  {
    DescribeOnly(names, Polling(id, action, oldPrimary), s, env, n, before);
  }

  // ---- bind ----

  /**
   * A bind reads the secret exactly if the group it describes has a configuration endpoint or a node
   * group, and returns the former's address and port, or else those of the first node group's primary.
   */
  lemma BindCourse(
      names: Names, id: GoString, g: Group, s: Stores, env: Environment, n: nat, before: seq<Exchange>)
    requires Serve(env, s, DescribeGroup(names.group(id)), n).1 == Described(g)
    ensures var course := CourseOf(names, LocatingGroup(id), s, env, n, before);
      var name, path := names.group(id), names.secret(id);
      if g.configurationEndpoint.None? && |g.nodeGroups| == 0 then
        && Adds(before, course.made, [DescribeGroup(name)]) && course.end.task == Finished(id, Failed)
      else
        && Adds(before, course.made, [DescribeGroup(name), GetSecret(path)])
        && var reply := ReplyTo(before, course.made, 1);
           var endpoint :=
             if g.configurationEndpoint.Some? then g.configurationEndpoint.value else g.nodeGroups[0].primaryEndpoint;
           course.end.task == Finished(id,
             if reply.SecretIs? then Bound(Credentials(endpoint.address, endpoint.port, name, reply.value)) else Failed)
  {
    var t, name := LocatingGroup(id), names.group(id);
    var s', reply := OneCall(names, t, s, env, n, before);
    var e := Exchange(DescribeGroup(name), reply);
    if g.configurationEndpoint.None? && |g.nodeGroups| == 0 {
      AddsOne(before, e);
    } else {
      var next := Resume(names, t, reply);
      var last := LastCall(names, next, s', env, n + 1, before + [e]);
      AddsFirst(before, e, CourseOf(names, next, s', env, n + 1, before + [e]).made, [GetSecret(names.secret(id))]);
      assert [e.call] + [GetSecret(names.secret(id))] == [DescribeGroup(name), GetSecret(names.secret(id))];
    }
  }

  lemma UnseenBindCourse(names: Names, id: GoString, s: Stores, env: Environment, n: nat, before: seq<Exchange>)
    requires !Serve(env, s, DescribeGroup(names.group(id)), n).1.Described?
    ensures var course := CourseOf(names, LocatingGroup(id), s, env, n, before);
      && Adds(before, course.made, [DescribeGroup(names.group(id))])
      && course.end.task == Finished(id, Failed)
  {
    var s', reply := OneCall(names, LocatingGroup(id), s, env, n, before);
    var e := Exchange(DescribeGroup(names.group(id)), reply);
    AddsOne(before, e);
  }

  // ---- under which names ----

  /** The parameter group, group or secret that a call is about. */
  predicate IsAbout(call: Call, name: GoString, path: GoString) {
    match call
    case CreateSecret(p, _) => p == path
    case DeleteSecret(p, _) => p == path
    case GetSecret(p) => p == path
    case CreateParamGroup(n) => n == name
    case ModifyParamGroup(n, _) => n == name
    case DeleteParamGroup(n) => n == name
    case CreateGroup(n, _, _, _) => n == name
    case DeleteGroup(n) => n == name
    case ModifyGroup(n, _) => n == name
    case DescribeGroup(n) => n == name
  }

  lemma {:induction false} EveryCallIsAboutItsInstance(
      names: Names, t: Task, s: Stores, env: Environment, n: nat, before: seq<Exchange>)
    ensures var after := CourseOf(names, t, s, env, n, before).made;
      && before <= after
      && forall i :: |before| <= i < |after| ==> IsAbout(after[i].call, names.group(t.id), names.secret(t.id))
    decreases CallsLeft(t)
  {
    if !t.Finished? {
      var s', reply := OneCall(names, t, s, env, n, before);
      var e := Exchange(NextCall(names, t), reply);
      EveryCallIsAboutItsInstance(names, Resume(names, t, reply), s', env, n + 1, before + [e]);
    }
  }

  /**
   * Every call of every request of the broker names the group name generated from its own instance id, or
   * the path made of the prefix, that id and the fixed ends.
   */
  lemma BrokerCallsNameTheirInstance(
      prefix: GoString, t: Task, s: Stores, env: Environment, n: nat, before: seq<Exchange>)
    ensures var after := CourseOf(BrokerNames(prefix), t, s, env, n, before).made;
      && before <= after
      && forall i :: |before| <= i < |after| ==>
           IsAbout(after[i].call, GenerateReplicationGroupName(t.id), prefix + "/" + t.id + "/auth-token")
  {
    EveryCallIsAboutItsInstance(BrokerNames(prefix), t, s, env, n, before);
  }
}
