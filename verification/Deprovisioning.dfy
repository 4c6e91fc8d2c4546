/** What is left of an instance once the platform has been told that it is gone, and what polls may do. */
module Deprovisioning {
  import opened GoTypes
  import opened Aws
  import opened Requests
  import opened Lifecycle

  // ---- polls keep to their action ----

  /** Where a poll with this action can be. */
  predicate PollStage(t: Task, id: GoString, action: Action) {
    && t.id == id
    && match t
       case Polling(_, a, _) => a == action
       case Advancing(_, change) => action == FailoverTest && (change.Cutover? || change.EnableHA?)
       case DroppingParamGroup(_) => action == Deprovisioning
       case Finished(_, _) => true
       case _ => false
  }

  lemma PollStep(names: Names, t: Task, s: Stores, fault: bool, id: GoString, action: Action)
    requires PollStage(t, id, action) && !t.Finished?
    ensures var (s', reply) := Apply(s, NextCall(names, t), fault);
      && PollStage(Resume(names, t, reply), id, action)
      && s'.secrets == s.secrets
      && (action != Deprovisioning ==> s'.paramGroups == s.paramGroups)
      && (action != FailoverTest ==> s'.groups == s.groups)
      && (forall n :: n in s.paramGroups && n != names.group(id) ==>
            n in s'.paramGroups && s'.paramGroups[n] == s.paramGroups[n])
      && (forall n :: n in s.groups && n != names.group(id) ==> n in s'.groups && s'.groups[n] == s.groups[n])
  {
  }

  /**
   * Over any run: no poll with another action than deprovisioning deletes a parameter group, none
   * but a failover poll modifies a group, and none touches a secret or another group name.
   */
  lemma {:induction false} PollsKeepToTheirAction(
      w: World, es: seq<Event>, p: nat, id: GoString, action: Action, fault: bool)
    requires p in w.tasks && PollStage(w.tasks[p], id, action)
    ensures var now := Run(w, es);
      var s, s' := now.stores, Exec(now, Step(p, fault)).stores;
      && p in now.tasks && PollStage(now.tasks[p], id, action)
      && s'.secrets == s.secrets
      && (action != Deprovisioning ==> s'.paramGroups == s.paramGroups)
      && (action != FailoverTest ==> s'.groups == s.groups)
    decreases |es|
  {
    if es == [] {
      if !w.tasks[p].Finished? {
        PollStep(w.names, w.tasks[p], w.stores, fault, id, action);
      }
    } else {
      var next := Exec(w, es[0]);
      if es[0].Step? && es[0].pid == p && !w.tasks[p].Finished? {
        PollStep(w.names, w.tasks[p], w.stores, es[0].fault, id, action);
      }
      PollsKeepToTheirAction(next, es[1..], p, id, action, fault);
    }
  }

  // ---- gone means gone ----

  predicate ProvisionsOf(t: Task, id: GoString) {
    IsProvision(t) && t.id == id
  }

  /** Deprovisioned and not provisioned again. */
  ghost predicate Cleared(w: World, id: GoString) {
    && id in w.ids
    && !IsLive(w.stores, w.names.secret(id))
    && !InService(w, id)
    && (forall p :: p in w.tasks ==> !ProvisionsOf(w.tasks[p], id))
  }

  predicate GroupAbsent(w: World, id: GoString) { w.names.group(id) !in w.stores.groups }

  predicate ParamGroupAbsent(w: World, id: GoString) { w.names.group(id) !in w.stores.paramGroups }

  lemma ParamGroupsOnlyFromProvision(names: Names, t: Task, s: Stores, fault: bool, n: GoString)
    requires !t.Finished?
    requires n !in s.paramGroups && (t.CreatingParamGroup? ==> names.group(t.id) != n)
    ensures n !in Apply(s, NextCall(names, t), fault).0.paramGroups
  {
  }

  lemma ClearedKept(w: World, e: Event, id: GoString)
    requires Ownership(w) && Cleared(w, id)
    requires e.Arrive? ==> !ProvisionsOf(e.request, id)
    ensures var w' := Exec(w, e);
      && Cleared(w', id)
      && (GroupAbsent(w, id) ==> GroupAbsent(w', id))
      && (ParamGroupAbsent(w, id) ==> ParamGroupAbsent(w', id))
  {
    if e.Step? && e.pid in w.tasks && !w.tasks[e.pid].Finished? {
      var t := w.tasks[e.pid];
      var (s', reply) := Apply(w.stores, NextCall(w.names, t), e.fault);
      StepEffect(w.names, t, w.stores, e.fault);
      if ParamGroupAbsent(w, id) {
        ParamGroupsOnlyFromProvision(w.names, t, w.stores, e.fault, w.names.group(id));
      }
      ClearedThroughStep(w, e.pid, s', Resume(w.names, t, reply), id);
    }
  }

  lemma ClearedThroughStep(w: World, p: nat, s': Stores, t': Task, id: GoString)
    requires Ownership(w) && Cleared(w, id) && p in w.tasks
    requires AllowedStep(w.names, w.tasks[p], w.stores, s', t')
    ensures Cleared(w.(stores := s', tasks := w.tasks[p := t']), id)
    ensures GroupAbsent(w, id) ==> w.names.group(id) !in s'.groups
  {
    assert !ProvisionsOf(w.tasks[p], id);
  }

  /** What a deprovisioning poll that began after the clearing can have seen. */
  ghost predicate Trail(w: World, p: nat, id: GoString) {
    && Ownership(w) && Cleared(w, id)
    && (p in w.tasks ==>
          && PollStage(w.tasks[p], id, Deprovisioning)
          && (w.tasks[p].DroppingParamGroup? ==> GroupAbsent(w, id))
          && (w.tasks[p] == Finished(id, Gone) ==> GroupAbsent(w, id) && ParamGroupAbsent(w, id)))
  }

  predicate NoReprovision(e: Event, p: nat, id: GoString) {
    e.Arrive? ==>
      && !ProvisionsOf(e.request, id)
      && (e.pid == p ==> e.request.Polling? && e.request.id == id && e.request.action == Deprovisioning)
  }

  lemma PollSees(names: Names, t: Task, s: Stores, fault: bool, id: GoString)
    requires PollStage(t, id, Deprovisioning) && !t.Finished?
    ensures var (s', reply) := Apply(s, NextCall(names, t), fault);
      var t' := Resume(names, t, reply);
      && (t'.DroppingParamGroup? ==> names.group(id) !in s.groups)
      && (t' == Finished(id, Gone) ==> t.DroppingParamGroup? && names.group(id) !in s'.paramGroups)
  {
  }

  lemma TrailKept(w: World, e: Event, p: nat, id: GoString)
    requires Trail(w, p, id) && NoReprovision(e, p, id)
    ensures Trail(Exec(w, e), p, id)
  {
    var w' := Exec(w, e);
    OwnershipKept(w, e);
    ClearedKept(w, e, id);
    if e.Step? && e.pid == p && p in w.tasks && !w.tasks[p].Finished? {
      var (s', reply) := Apply(w.stores, NextCall(w.names, w.tasks[p]), e.fault);
      var t' := Resume(w.names, w.tasks[p], reply);
      PollStep(w.names, w.tasks[p], w.stores, e.fault, id, Deprovisioning);
      PollSees(w.names, w.tasks[p], w.stores, e.fault, id);
      TrailThroughStep(w, p, s', t', id);
    } else if p in w'.tasks && p in w.tasks {
      assert w'.tasks[p] == w.tasks[p];
    }
  }

  lemma TrailThroughStep(w: World, p: nat, s': Stores, t': Task, id: GoString)
    requires Trail(w, p, id) && p in w.tasks && PollStage(t', id, Deprovisioning)
    requires t'.DroppingParamGroup? ==> w.names.group(id) !in w.stores.groups
    requires t' == Finished(id, Gone) ==> w.tasks[p].DroppingParamGroup? && w.names.group(id) !in s'.paramGroups
    requires var w' := w.(stores := s', tasks := w.tasks[p := t']);
      && Ownership(w') && Cleared(w', id)
      && (GroupAbsent(w, id) ==> GroupAbsent(w', id))
    ensures Trail(w.(stores := s', tasks := w.tasks[p := t']), p, id)
  {
  }

  lemma {:induction false} TrailAlways(w: World, es: seq<Event>, p: nat, id: GoString)
    requires Trail(w, p, id) && forall k :: 0 <= k < |es| ==> NoReprovision(es[k], p, id)
    ensures Trail(Run(w, es), p, id)
    decreases |es|
  {
    if es != [] {
      TrailKept(w, es[0], p, id);
      TrailAlways(Exec(w, es[0]), es[1..], p, id);
    }
  }

  /** A successful Deprovision clears its instance, provided no provision of it is under way. */
  lemma DeprovisionClears(w: World, d: nat, id: GoString)
    requires Ownership(w) && d in w.tasks && w.tasks[d] == DeletingSecret(id)
    requires Exec(w, Step(d, false)).tasks[d] == Finished(id, Success)
    requires forall q :: q in w.tasks ==> !ProvisionsOf(w.tasks[q], id)
    ensures Cleared(Exec(w, Step(d, false)), id)
  {
    assert OneOwner(w, id) && Owns(w, d, id);
  }

  /**
   * Deprovision has just succeeded (request d) and no provision of the instance is under way. If a
   * deprovisioning poll p that comes later answers that the instance does not exist, and nobody has
   * provisioned it again, then its group and parameter group are absent and its secret is not live.
   */
  lemma GoneMeansGone(w: World, before: seq<Event>, d: nat, after: seq<Event>, p: nat, id: GoString)
    requires Start(w) && id in w.ids
    requires var deleting := Run(w, before);
      && d in deleting.tasks && deleting.tasks[d] == DeletingSecret(id)
      && Exec(deleting, Step(d, false)).tasks[d] == Finished(id, Success)
      && p !in deleting.tasks
      && forall q :: q in deleting.tasks ==> !ProvisionsOf(deleting.tasks[q], id)
    requires forall k :: 0 <= k < |after| ==> NoReprovision(after[k], p, id)
    requires var last := Run(Exec(Run(w, before), Step(d, false)), after);
      p in last.tasks && last.tasks[p] == Finished(id, Gone)
    ensures var last := Run(Exec(Run(w, before), Step(d, false)), after);
      GroupAbsent(last, id) && ParamGroupAbsent(last, id) && !IsLive(last.stores, last.names.secret(id))
  {
    var deleting := Run(w, before);
    OwnershipAlways(w, before);
    NamesAndIdsFixed(w, before);
    OwnershipKept(deleting, Step(d, false));
    DeprovisionClears(deleting, d, id);
    TrailAlways(Exec(deleting, Step(d, false)), after, p, id);
  }

  /** And the other way round: where group and parameter group are absent, a poll whose calls go through says so. */
  lemma AbsentIsAnswered(names: Names, id: GoString, oldPrimary: string, s: Stores, faults: nat -> bool, n: nat)
    requires names.group(id) !in s.groups && names.group(id) !in s.paramGroups
    requires !faults(n) && !faults(n + 1)
    ensures RunAlone(names, Polling(id, Deprovisioning, oldPrimary), s, faults, n) == Ran(Finished(id, Gone), s, n + 2)
  {
    var t := Polling(id, Deprovisioning, oldPrimary);
    assert Apply(s, NextCall(names, t), faults(n)) == (s, Refused(NotFound));
    assert Apply(s, NextCall(names, DroppingParamGroup(id)), faults(n + 1)) == (s, Refused(NotFound));
    assert RunAlone(names, t, s, faults, n) == RunAlone(names, DroppingParamGroup(id), s, faults, n + 1);
    assert RunAlone(names, DroppingParamGroup(id), s, faults, n + 1) == Ran(Finished(id, Gone), s, n + 2);
  }

  // ---- repeating a deprovision ----

  function Deprovisioned(names: Names, id: GoString, s: Stores, faults: nat -> bool, n: nat): Ran {
    RunAlone(names, DeletingGroup(id), s, faults, n)
  }

  /** AWS takes the deletion of the group. */
  predicate GroupIsTaken(names: Names, id: GoString, s: Stores, faults: nat -> bool, n: nat) {
    !faults(n) && names.group(id) in s.groups && !BeingDeleted(s.groups[names.group(id)])
  }

  predicate DeprovisionSucceeds(names: Names, id: GoString, s: Stores, faults: nat -> bool, n: nat) {
    GroupIsTaken(names, id, s, faults, n) && !faults(n + 1) && IsLive(s, names.secret(id))
  }

  function RetiredStores(names: Names, id: GoString, s: Stores): Stores
    requires names.group(id) in s.groups
  {
    var name := names.group(id);
    s.(groups := s.groups[name := s.groups[name].(status := Some(Deleting), pending := None)])
  }

  lemma RefusedDelete(names: Names, id: GoString, s: Stores, faults: nat -> bool, n: nat)
    requires !GroupIsTaken(names, id, s, faults, n)
    ensures Deprovisioned(names, id, s, faults, n) == Ran(Finished(id, Failed), s, n + 1)
  {
    var (s1, reply) := Apply(s, NextCall(names, DeletingGroup(id)), faults(n));
    assert s1 == s && Resume(names, DeletingGroup(id), reply) == Finished(id, Failed);
    assert RunAlone(names, Finished(id, Failed), s, faults, n + 1) == Ran(Finished(id, Failed), s, n + 1);
  }

  lemma TakenDelete(names: Names, id: GoString, s: Stores, faults: nat -> bool, n: nat)
    requires GroupIsTaken(names, id, s, faults, n)
    ensures Deprovisioned(names, id, s, faults, n)
         == RunAlone(names, DeletingSecret(id), RetiredStores(names, id, s), faults, n + 1)
  {
    var (s1, reply) := Apply(s, NextCall(names, DeletingGroup(id)), faults(n));
    assert s1 == RetiredStores(names, id, s) && Resume(names, DeletingGroup(id), reply) == DeletingSecret(id);
  }

  lemma SecretStep(names: Names, id: GoString, s: Stores, faults: nat -> bool, n: nat)
    ensures var r := RunAlone(names, DeletingSecret(id), s, faults, n);
      var path := names.secret(id);
      r == if !faults(n) && IsLive(s, path)
           then
             Ran(Finished(id, Success), s.(secrets := s.secrets[path := Scheduled(s.secrets[path].value, 30)]), n + 1)
           else Ran(Finished(id, Failed), s, n + 1)
  {
    var t := DeletingSecret(id);
    var (s', reply) := Apply(s, NextCall(names, t), faults(n));
    assert RunAlone(names, t, s, faults, n) == Ran(Resume(names, t, reply), s', n + 1);
  }

  /** What a deprovision leaves, on every path. */
  lemma DeprovisionLeaves(names: Names, id: GoString, s: Stores, faults: nat -> bool, n: nat)
    ensures var r := Deprovisioned(names, id, s, faults, n);
      var path := names.secret(id);
      && r.task == Finished(id, if DeprovisionSucceeds(names, id, s, faults, n) then Success else Failed)
      && r.stores ==
         if !GroupIsTaken(names, id, s, faults, n) then s
         else if DeprovisionSucceeds(names, id, s, faults, n)
         then RetiredStores(names, id, s).(secrets := s.secrets[path := Scheduled(s.secrets[path].value, 30)])
         else RetiredStores(names, id, s)
  {
    if GroupIsTaken(names, id, s, faults, n) {
      TakenDelete(names, id, s, faults, n);
      SecretStep(names, id, RetiredStores(names, id, s), faults, n + 1);
    } else {
      RefusedDelete(names, id, s, faults, n);
    }
  }

  /** Exactly when repeating a failed deprovision helps: its first call had failed, and now all goes well. */
  lemma RepeatSucceedsOnlyIfNothingWasTaken(
      names: Names, id: GoString, s: Stores, faults: nat -> bool, n: nat, later: nat -> bool, m: nat)
    requires !DeprovisionSucceeds(names, id, s, faults, n)
    ensures Deprovisioned(names, id, Deprovisioned(names, id, s, faults, n).stores, later, m).task.outcome == Success
       <==> faults(n) && DeprovisionSucceeds(names, id, s, later, m)
  {
    DeprovisionLeaves(names, id, s, faults, n);
    DeprovisionLeaves(names, id, Deprovisioned(names, id, s, faults, n).stores, later, m);
  }

  /**
   * Once AWS has taken the deletion of the group and the secret's has failed, every repeat fails, while
   * the group is being deleted and after it has gone.
   */
  lemma HalfDoneNeverRepeats(
      names: Names, id: GoString, s: Stores, faults: nat -> bool, n: nat, later: nat -> bool, m: nat)
    requires GroupIsTaken(names, id, s, faults, n) && !DeprovisionSucceeds(names, id, s, faults, n)
    ensures var left := Deprovisioned(names, id, s, faults, n).stores;
      var gone := left.(groups := left.groups - {names.group(id)});
      && Deprovisioned(names, id, left, later, m) == Ran(Finished(id, Failed), left, m + 1)
      && Deprovisioned(names, id, gone, later, m) == Ran(Finished(id, Failed), gone, m + 1)
  {
    var left := Deprovisioned(names, id, s, faults, n).stores;
    DeprovisionLeaves(names, id, s, faults, n);
    RefusedDelete(names, id, left, later, m);
    RefusedDelete(names, id, left.(groups := left.groups - {names.group(id)}), later, m);
  }
}
